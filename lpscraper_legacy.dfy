/** Model of import_backpack_from_lp in app/lpscraper.py, the older copy: an explicit
    category counter, one item counter across all categories, quantities through int(). */
module LpScraperLegacy {
  import opened Wrappers
  import opened Lighterpack

  /** import_backpack_from_lp, given what scrape_backpack returned (None for False). */
  method ImportBackpackFromLp(scrapeData: Option<ScrapedList>) returns (r: Outcome)
    ensures r == ImportBackpack(scrapeData, ParseInt)
  {
    if scrapeData.None? {
      return NotFound;
    }
    var s := scrapeData.value;
    var cats := s.categories;
    var list: seq<LpCategory> := [];

    var categoriesIdCounter := 0;
    var itemsIdCounter := 0;
    var i := 0;
    while i < |cats|
      invariant 0 <= i <= |cats|
      invariant categoriesIdCounter == i
      invariant AllParse(cats[..i], ParseInt)
      invariant itemsIdCounter == TotalItems(cats[..i])
      invariant list == ConvertCategories(cats[..i], ParseInt)
    {
      var category := cats[i];
      var prefix := cats[..i];
      list := list + [LpCategory(categoriesIdCounter, category.name, [])];
      categoriesIdCounter := categoriesIdCounter + 1;

      var items := category.items;
      var j := 0;
      while j < |items|
        invariant 0 <= j <= |items|
        invariant ItemsParse(items[..j], ParseInt)
        invariant itemsIdCounter == TotalItems(prefix) + j
        invariant list == ConvertCategories(prefix, ParseInt) +
                          [LpCategory(i, category.name, ConvertItems(items[..j], TotalItems(prefix), ParseInt))]
      {
        var item := items[j];
        var converted := WeightInGrams(item.weight, item.unit);
        if converted.None? {
          assert !ItemParses(cats[i].items[j], ParseInt);
          return ValueError;
        }
        var weight := converted.value;
        var quantity: int;
        match ToInt(item.quantity) {
          case None =>
            assert !ItemParses(cats[i].items[j], ParseInt);
            return ValueError;
          case Some(q) =>
            quantity := q;
        }
        ConvertItemsExtend(items, j, TotalItems(prefix), ParseInt);
        var last := list[|list| - 1];
        list := list[..|list| - 1] + [last.(items := last.items +
          [LpItem(itemsIdCounter, item.name, item.description, weight, item.worn, item.consumable, IntQuantity(quantity))])];
        itemsIdCounter := itemsIdCounter + 1;
        j := j + 1;
      }
      assert items[..j] == items;
      ConvertCategoriesExtend(cats, i, ParseInt);
      i := i + 1;
    }
    assert cats[..i] == cats;
    return Built(Backpack(s.name, s.description, list));
  }
}
