/** Model of import_backpack_from_lp in app/functions/lpscraper.py: category ids from
    enumerate, one item counter across all categories, quantities through float(). */
module LpScraper {
  import opened Wrappers
  import opened Lighterpack

  /** import_backpack_from_lp, given what scrape_backpack returned (None for False). */
  method ImportBackpackFromLp(scrapeData: Option<ScrapedList>) returns (r: Outcome)
    ensures r == ImportBackpack(scrapeData, ParseFloat)
  {
    if scrapeData.None? {
      return NotFound;
    }
    var s := scrapeData.value;
    var cats := s.categories;
    var list: seq<LpCategory> := [];

    var itemsIdCounter := 0;
    var categoryId := 0;
    while categoryId < |cats|
      invariant 0 <= categoryId <= |cats|
      invariant AllParse(cats[..categoryId], ParseFloat)
      invariant itemsIdCounter == TotalItems(cats[..categoryId])
      invariant list == ConvertCategories(cats[..categoryId], ParseFloat)
    {
      var category := cats[categoryId];
      var prefix := cats[..categoryId];
      list := list + [LpCategory(categoryId, category.name, [])];

      var items := category.items;
      var j := 0;
      while j < |items|
        invariant 0 <= j <= |items|
        invariant ItemsParse(items[..j], ParseFloat)
        invariant itemsIdCounter == TotalItems(prefix) + j
        invariant list == ConvertCategories(prefix, ParseFloat) +
                          [LpCategory(categoryId, category.name, ConvertItems(items[..j], TotalItems(prefix), ParseFloat))]
      {
        var item := items[j];
        var converted := WeightInGrams(item.weight, item.unit);
        if converted.None? {
          assert !ItemParses(cats[categoryId].items[j], ParseFloat);
          return ValueError;
        }
        var weight := converted.value;
        var quantity: real;
        match ToFloat(item.quantity) {
          case None =>
            assert !ItemParses(cats[categoryId].items[j], ParseFloat);
            return ValueError;
          case Some(q) =>
            quantity := q;
        }
        ConvertItemsExtend(items, j, TotalItems(prefix), ParseFloat);
        var last := list[|list| - 1];
        list := list[..|list| - 1] + [last.(items := last.items +
          [LpItem(itemsIdCounter, item.name, item.description, weight, item.worn, item.consumable, FloatQuantity(quantity))])];
        itemsIdCounter := itemsIdCounter + 1;
        j := j + 1;
      }
      assert items[..j] == items;
      ConvertCategoriesExtend(cats, categoryId, ParseFloat);
      categoryId := categoryId + 1;
    }
    assert cats[..categoryId] == cats;
    return Built(Backpack(s.name, s.description, list));
  }
}
