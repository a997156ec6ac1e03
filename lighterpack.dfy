/** The record a Lighterpack list page is scraped into, and the conversion both copies of
    import_backpack_from_lp apply to it (app/functions/lpscraper.py, app/lpscraper.py). */
module Lighterpack {
  import opened Wrappers

  /** A numeric text field as Python's int() and float() see it. */
  datatype NumText =
    | Blank             // the empty string
    | Integral(n: int)  // a text int() accepts (so float() does too), such as "2"
    | Decimal(v: real)  // a text only float() accepts, such as "1.5"
    | Junk              // a text neither accepts

  datatype ScrapedItem = ScrapedItem(name: string, description: string, worn: bool, consumable: bool,
                                     weight: NumText, unit: string, quantity: NumText)
  datatype ScrapedCategory = ScrapedCategory(name: string, items: seq<ScrapedItem>)
  /** What scrape_backpack returns when it found the page. */
  datatype ScrapedList = ScrapedList(name: string, description: string, categories: seq<ScrapedCategory>)

  /** A quantity as emitted: an int (app/lpscraper.py) or a float (app/functions/lpscraper.py). */
  datatype Quantity = IntQuantity(n: int) | FloatQuantity(v: real)
  /** Which conversion a copy applies to the quantity text. */
  datatype QuantityParse = ParseInt | ParseFloat

  datatype LpItem = LpItem(id: int, name: string, description: string, weight: real,
                           worn: bool, consumable: bool, quantity: Quantity)
  datatype LpCategory = LpCategory(id: int, name: string, items: seq<LpItem>)
  datatype Backpack = Backpack(name: string, description: string, list: seq<LpCategory>)

  /** The result of an import: the backpack, False for a page that was not found, or the
      ValueError that int() or float() raises on a text it does not accept. */
  datatype Outcome = Built(backpack: Backpack) | NotFound | ValueError

  /** Python's float() on a text. */
  function ToFloat(t: NumText): Option<real> {
    match t
    case Integral(n) => Some(n as real)
    case Decimal(v) => Some(v)
    case _ => None
  }

  /** Python's int() on a text. */
  function ToInt(t: NumText): Option<int> {
    match t
    case Integral(n) => Some(n)
    case _ => None
  }

  function ParseQuantity(p: QuantityParse, t: NumText): Option<Quantity> {
    match p
    case ParseInt => (match ToInt(t) case Some(n) => Some(IntQuantity(n)) case None => None)
    case ParseFloat => (match ToFloat(t) case Some(v) => Some(FloatQuantity(v)) case None => None)
  }

  /** Grams per unit; a unit outside the four leaves the number as it is. */
  function UnitMultiplier(unit: string): real {
    if unit == "g" then 1.0
    else if unit == "kg" then 1000.0
    else if unit == "oz" then 28.35
    else if unit == "lb" then 453.59
    else 1.0
  }

  /** The weight in grams: an empty text counts as 0, anything else goes through float(). */
  function ConvertWeight(t: NumText, unit: string): (r: Option<real>)
    ensures r.Some? <==> t == Blank || ToFloat(t).Some?
    ensures t == Blank ==> r == Some(0.0)
    ensures ToFloat(t).Some? ==> r == Some(ToFloat(t).value * UnitMultiplier(unit))
  {
    match ToFloat(if t == Blank then Integral(0) else t)
    case Some(w) => Some(w * UnitMultiplier(unit))
    case None => None
  }

  /** The weight handling both copies share: the weight field becomes 0 when empty, then
      float() of itself, then itself times the unit's multiplier (None where float() raises). */
  method WeightInGrams(weight: NumText, unit: string) returns (r: Option<real>)
    ensures r == ConvertWeight(weight, unit)
  {
    var text := weight;
    if text == Blank {
      text := Integral(0);
    }
    var grams: real;
    match ToFloat(text) {
      case None => return None;
      case Some(w) => grams := w;
    }
    ghost var parsed := grams;
    if unit == "g" {
    } else if unit == "kg" {
      grams := grams * 1000.0;
    } else if unit == "oz" {
      grams := grams * 28.35;
    } else if unit == "lb" {
      grams := grams * 453.59;
    }
    assert grams == parsed * UnitMultiplier(unit);
    return Some(grams);
  }

  /** int()/float() accept both the weight and the quantity of the item. */
  predicate ItemParses(item: ScrapedItem, p: QuantityParse) {
    ConvertWeight(item.weight, item.unit).Some? && ParseQuantity(p, item.quantity).Some?
  }

  predicate ItemsParse(items: seq<ScrapedItem>, p: QuantityParse) {
    forall k :: 0 <= k < |items| ==> ItemParses(items[k], p)
  }

  predicate AllParse(cats: seq<ScrapedCategory>, p: QuantityParse) {
    forall i :: 0 <= i < |cats| ==> ItemsParse(cats[i].items, p)
  }

  /** The number of items in some categories. */
  function TotalItems(cats: seq<ScrapedCategory>): nat {
    if cats == [] then 0 else TotalItems(cats[..|cats| - 1]) + |cats[|cats| - 1].items|
  }

  /** The output of one scraped item under the given id. */
  function ConvertItem(item: ScrapedItem, id: int, p: QuantityParse): LpItem
    requires ItemParses(item, p)
  {
    LpItem(id, item.name, item.description, ConvertWeight(item.weight, item.unit).value,
           item.worn, item.consumable, ParseQuantity(p, item.quantity).value)
  }

  /** The items of one category, numbered from firstId on. */
  function ConvertItems(items: seq<ScrapedItem>, firstId: int, p: QuantityParse): (r: seq<LpItem>)
    requires ItemsParse(items, p)
    ensures |r| == |items|
  {
    if items == [] then []
    else ConvertItems(items[..|items| - 1], firstId, p) +
         [ConvertItem(items[|items| - 1], firstId + |items| - 1, p)]
  }

  /** The categories, numbered from 0, their items numbered by one counter over all of them. */
  function ConvertCategories(cats: seq<ScrapedCategory>, p: QuantityParse): (r: seq<LpCategory>)
    requires AllParse(cats, p)
    ensures |r| == |cats|
  {
    if cats == [] then []
    else
      var prefix := cats[..|cats| - 1];
      var last := cats[|cats| - 1];
      ConvertCategories(prefix, p) + [LpCategory(|cats| - 1, last.name, ConvertItems(last.items, TotalItems(prefix), p))]
  }

  /** import_backpack_from_lp on an already scraped page (None where scraping failed). */
  function ImportBackpack(scrape: Option<ScrapedList>, p: QuantityParse): (r: Outcome)
    ensures r == NotFound <==> scrape.None?
    ensures r.Built? ==> && r.backpack.name == scrape.value.name
                         && r.backpack.description == scrape.value.description
                         && |r.backpack.list| == |scrape.value.categories|
  {
    match scrape
    case None => NotFound
    case Some(s) =>
      if AllParse(s.categories, p) then Built(Backpack(s.name, s.description, ConvertCategories(s.categories, p)))
      else ValueError
  }

  /** Converting one more item of a category appends its output under the next id. */
  lemma ConvertItemsExtend(items: seq<ScrapedItem>, j: nat, firstId: int, p: QuantityParse)
    requires j < |items| && ItemsParse(items[..j], p) && ItemParses(items[j], p)
    ensures ItemsParse(items[..j + 1], p)
    ensures ConvertItems(items[..j + 1], firstId, p) ==
            ConvertItems(items[..j], firstId, p) + [ConvertItem(items[j], firstId + j, p)]
  {
    assert items[..j + 1][..j] == items[..j];
    assert forall k :: 0 <= k < j + 1 ==> items[..j + 1][k] == items[k];
  }

  /** Converting one more category appends it under the next id, its items numbered on. */
  lemma ConvertCategoriesExtend(cats: seq<ScrapedCategory>, i: nat, p: QuantityParse)
    requires i < |cats| && AllParse(cats[..i], p) && ItemsParse(cats[i].items, p)
    ensures AllParse(cats[..i + 1], p)
    ensures TotalItems(cats[..i + 1]) == TotalItems(cats[..i]) + |cats[i].items|
    ensures ConvertCategories(cats[..i + 1], p) ==
            ConvertCategories(cats[..i], p) + [LpCategory(i, cats[i].name, ConvertItems(cats[i].items, TotalItems(cats[..i]), p))]
  {
    assert cats[..i + 1][..i] == cats[..i];
    assert forall k :: 0 <= k < i + 1 ==> cats[..i + 1][k] == cats[k];
  }

  /** All items of the output list, category by category. */
  function FlattenItems(list: seq<LpCategory>): seq<LpItem> {
    if list == [] then [] else FlattenItems(list[..|list| - 1]) + list[|list| - 1].items
  }

  // ---------------------------------------------------------------------------
  // Properties

  /** The import builds nothing for a missing page, raises exactly when some weight or
      quantity text is refused, and builds the backpack otherwise. */
  lemma ImportOutcomes(scrape: Option<ScrapedList>, p: QuantityParse)
    ensures ImportBackpack(scrape, p) == NotFound <==> scrape.None?
    ensures ImportBackpack(scrape, p) == ValueError <==>
      scrape.Some? &&
      (exists i, k :: 0 <= i < |scrape.value.categories| && 0 <= k < |scrape.value.categories[i].items| &&
                      !ItemParses(scrape.value.categories[i].items[k], p))
    ensures ImportBackpack(scrape, p).Built? <==> scrape.Some? && AllParse(scrape.value.categories, p)
  {
  }

  /** Item k of a converted category is item k of the scraped one under id firstId + k. */
  lemma {:induction false} ConvertItemsShape(items: seq<ScrapedItem>, firstId: int, p: QuantityParse)
    requires ItemsParse(items, p)
    ensures |ConvertItems(items, firstId, p)| == |items|
    ensures forall k :: 0 <= k < |items| ==> ConvertItems(items, firstId, p)[k] == ConvertItem(items[k], firstId + k, p)
    decreases |items|
  {
    if items != [] {
      var prefix := items[..|items| - 1];
      assert ItemsParse(prefix, p) by {
        forall k | 0 <= k < |prefix| ensures ItemParses(prefix[k], p) { assert prefix[k] == items[k]; }
      }
      ConvertItemsShape(prefix, firstId, p);
    }
  }

  /** Category i of the output has id i, the scraped name, and the scraped items numbered
      from the count of items in the categories before it. */
  lemma {:induction false} ConvertCategoryAt(cats: seq<ScrapedCategory>, i: nat, p: QuantityParse)
    requires AllParse(cats, p) && i < |cats|
    ensures ConvertCategories(cats, p)[i] == LpCategory(i, cats[i].name, ConvertItems(cats[i].items, TotalItems(cats[..i]), p))
    decreases |cats|
  {
    var prefix := cats[..|cats| - 1];
    if i < |prefix| {
      assert AllParse(prefix, p) by {
        forall k | 0 <= k < |prefix| ensures ItemsParse(prefix[k].items, p) { assert prefix[k] == cats[k]; }
      }
      ConvertCategoryAt(prefix, i, p);
      assert cats[..i] == prefix[..i] && cats[i] == prefix[i];
    } else {
      assert cats[..i] == prefix;
    }
  }

  /** The output has one category per scraped category, each as ConvertCategoryAt states. */
  lemma ConvertCategoriesShape(cats: seq<ScrapedCategory>, p: QuantityParse)
    requires AllParse(cats, p)
    ensures |ConvertCategories(cats, p)| == |cats|
    ensures forall i :: 0 <= i < |cats| ==>
      ConvertCategories(cats, p)[i] == LpCategory(i, cats[i].name, ConvertItems(cats[i].items, TotalItems(cats[..i]), p))
  {
    forall i | 0 <= i < |cats|
      ensures ConvertCategories(cats, p)[i] == LpCategory(i, cats[i].name, ConvertItems(cats[i].items, TotalItems(cats[..i]), p))
    {
      ConvertCategoryAt(cats, i, p);
    }
  }


  /** The backpack keeps the scraped name and description; it has one category per scraped
      category, in order, with id i at position i and the scraped name; each keeps its items
      in order, with names, descriptions and flags copied, the weight converted to grams and
      the quantity parsed. */
  lemma BackpackShape(s: ScrapedList, p: QuantityParse)
    requires ImportBackpack(Some(s), p).Built?
    ensures var b := ImportBackpack(Some(s), p).backpack;
      && b.name == s.name && b.description == s.description
      && |b.list| == |s.categories|
      && forall i :: 0 <= i < |b.list| ==>
           var cat := s.categories[i];
           && b.list[i].id == i && b.list[i].name == cat.name
           && |b.list[i].items| == |cat.items|
           && forall k :: 0 <= k < |cat.items| ==>
                var item := b.list[i].items[k];
                && item.id == TotalItems(s.categories[..i]) + k
                && item.name == cat.items[k].name && item.description == cat.items[k].description
                && item.worn == cat.items[k].worn && item.consumable == cat.items[k].consumable
                && Some(item.weight) == ConvertWeight(cat.items[k].weight, cat.items[k].unit)
                && Some(item.quantity) == ParseQuantity(p, cat.items[k].quantity)
  {
    ConvertCategoriesShape(s.categories, p);
    forall i | 0 <= i < |s.categories| {
      ConvertItemsShape(s.categories[i].items, TotalItems(s.categories[..i]), p);
    }
  }

  /** Flattened in order, the output items carry the ids 0, 1, ..., N-1: the item counter is
      never reset between categories. */
  lemma {:induction false} FlattenedIdsConsecutive(cats: seq<ScrapedCategory>, p: QuantityParse)
    requires AllParse(cats, p)
    ensures |FlattenItems(ConvertCategories(cats, p))| == TotalItems(cats)
    ensures forall k :: 0 <= k < TotalItems(cats) ==> FlattenItems(ConvertCategories(cats, p))[k].id == k
    decreases |cats|
  {
    if cats != [] {
      var prefix := cats[..|cats| - 1];
      var last := cats[|cats| - 1];
      assert AllParse(prefix, p) by {
        forall i | 0 <= i < |prefix| ensures ItemsParse(prefix[i].items, p) { assert prefix[i] == cats[i]; }
      }
      FlattenedIdsConsecutive(prefix, p);
      ConvertItemsShape(last.items, TotalItems(prefix), p);
      var list := ConvertCategories(cats, p);
      assert list[..|list| - 1] == ConvertCategories(prefix, p);
    }
  }

  /** The counts of the categories before category i, plus its own, never exceed the count
      before any later category. */
  lemma {:induction false} TotalItemsMonotone(cats: seq<ScrapedCategory>, i: nat, j: nat)
    requires i < j <= |cats|
    ensures TotalItems(cats[..i]) + |cats[i].items| <= TotalItems(cats[..j])
    decreases j - i
  {
    assert cats[..i + 1][..i] == cats[..i];
    if i + 1 < j {
      TotalItemsMonotone(cats, i + 1, j);
    }
  }

  /** No two items of the backpack share an id, across all categories. */
  lemma ItemIdsDistinct(s: ScrapedList, p: QuantityParse)
    requires ImportBackpack(Some(s), p).Built?
    ensures var list := ImportBackpack(Some(s), p).backpack.list;
      forall i, k, i', k' ::
        (0 <= i < |list| && 0 <= k < |list[i].items| && 0 <= i' < |list| && 0 <= k' < |list[i'].items| &&
         (i, k) != (i', k')) ==>
        list[i].items[k].id != list[i'].items[k'].id
  {
    var list := ImportBackpack(Some(s), p).backpack.list;
    BackpackShape(s, p);
    forall i, k, i', k' |
        0 <= i < |list| && 0 <= k < |list[i].items| && 0 <= i' < |list| && 0 <= k' < |list[i'].items| &&
        (i, k) != (i', k')
      ensures list[i].items[k].id != list[i'].items[k'].id
    {
      if i < i' {
        TotalItemsMonotone(s.categories, i, i');
      } else if i' < i {
        TotalItemsMonotone(s.categories, i', i);
      }
    }
  }

  /** The unit conversions: 2 kg is 2000 g, 1 lb is 453.59 g, 1 oz is 28.35 g, an empty
      weight is 0, and an unknown unit leaves the parsed number unchanged. */
  lemma UnitConversions(unit: string, t: NumText)
    ensures ConvertWeight(Integral(2), "kg") == Some(2000.0)
    ensures ConvertWeight(Integral(1), "lb") == Some(453.59)
    ensures ConvertWeight(Integral(1), "oz") == Some(28.35)
    ensures ConvertWeight(Blank, unit) == Some(0.0)
    ensures unit !in {"g", "kg", "oz", "lb"} && t != Blank ==> ConvertWeight(t, unit) == ToFloat(t)
    ensures ToFloat(t).Some? ==> ConvertWeight(t, "g") == Some(ToFloat(t).value)
    ensures ToFloat(t).Some? ==> ConvertWeight(t, "kg") == Some(ToFloat(t).value * 1000.0)
    ensures ToFloat(t).Some? ==> ConvertWeight(t, "oz") == Some(ToFloat(t).value * 28.35)
    ensures ToFloat(t).Some? ==> ConvertWeight(t, "lb") == Some(ToFloat(t).value * 453.59)
  {
    assert UnitMultiplier("g") == 1.0 && UnitMultiplier("kg") == 1000.0;
    assert UnitMultiplier("oz") == 28.35 && UnitMultiplier("lb") == 453.59;
  }

  /** The two copies agree except on the quantity: wherever the int-parsing copy builds a
      backpack, the float-parsing one builds the same backpack with each quantity as a float. */
  lemma VariantsAgree(s: ScrapedList)
    requires ImportBackpack(Some(s), ParseInt).Built?
    ensures ImportBackpack(Some(s), ParseFloat).Built?
    ensures var a := ImportBackpack(Some(s), ParseInt).backpack;
      var b := ImportBackpack(Some(s), ParseFloat).backpack;
      && a.name == b.name && a.description == b.description && |a.list| == |b.list|
      && forall i :: 0 <= i < |a.list| ==>
           && a.list[i].id == b.list[i].id && a.list[i].name == b.list[i].name
           && |a.list[i].items| == |b.list[i].items|
           && forall k :: 0 <= k < |a.list[i].items| ==>
                a.list[i].items[k].quantity.IntQuantity? &&
                b.list[i].items[k] == a.list[i].items[k].(quantity := FloatQuantity(a.list[i].items[k].quantity.n as real))
  {
    var cats := s.categories;
    assert AllParse(cats, ParseFloat) by {
      forall i, k | 0 <= i < |cats| && 0 <= k < |cats[i].items| ensures ItemParses(cats[i].items[k], ParseFloat) {
        assert ItemsParse(cats[i].items, ParseInt);
        assert ItemParses(cats[i].items[k], ParseInt);
      }
    }
    BackpackShape(s, ParseInt);
    BackpackShape(s, ParseFloat);
  }

  /** Where the copies differ: a quantity such as "1.5" imports under float() and raises
      under int(). */
  lemma QuantityParsingDiffers(s: ScrapedList)
    requires |s.categories| == 1 && |s.categories[0].items| == 1
    requires s.categories[0].items[0].weight == Blank && s.categories[0].items[0].quantity == Decimal(1.5)
    ensures ImportBackpack(Some(s), ParseInt) == ValueError
    ensures ImportBackpack(Some(s), ParseFloat).Built?
  {
    assert !ItemsParse(s.categories[0].items, ParseInt);
    assert ItemsParse(s.categories[0].items, ParseFloat);
  }
}
