# Gear-list import normalisers of hikegear_backend

This project models the two import paths of the hikegear backend that turn outside data into a user's gear list.

- **Spreadsheet merge** (`app/functions/excel_import.py`). It receives the three cell columns A:C of a workbook (name, description, weight) and the user's existing `private_gear`, a list of categories of items. It walks the rows in order:
  - A row whose name cell is the text `kategoria` opens a new category. The new category takes its name from the row's description cell and its id from a least-free scan below 1000.
  - Any other row with a truthy name or description becomes an item of the most recently opened category. Its id comes from a least-free scan below 10000 over all item ids already present. Its name and description are cut to the configured lengths, and its integer weight is capped from above.
  - The result is the existing list followed by the new categories. The first new category is always the synthetic one, named `importowane z pliku excel`.
- **Lighterpack builder** (`import_backpack_from_lp` in `app/functions/lpscraper.py`, and its older copy in `app/lpscraper.py`). It receives an already scraped list and numbers its categories 0..k-1 and its items 0..N-1, with one item counter shared by all categories. It turns an empty weight into 0, converts the weight to grams by the unit's multiplier and copies the other fields. The two copies differ in how the category id is produced (`enumerate` against an explicit counter) and in how the quantity is parsed (`float` against `int`).

## Files

- `wrappers.dfy` defines `Option` and `Result`.
- `excel_import.dfy` (module `ExcelImport`) holds the spreadsheet model:
  - the cell and gear datatypes;
  - the specification of the row fold, `Step` and `Run`, and of the whole import, `ImportFromExcel`;
  - the imperative methods `NewMyGearCatId`, `CollectItemIds` (with its inner loop `AddItemIds`), `AllocateItemId`, `ImportRow` and `ScrapeDataFromExcel`, each proved equal to the specification.
- `excel_import_proofs.dfy` (module `ExcelImportProofs`) proves the properties of that specification: id freshness and distinctness, prefix preservation, cell normalisation, the error cases, and the spreadsheet of the view test.
- `lighterpack.dfy` (module `Lighterpack`) holds the scraped-list datatypes, the conversion specification `ImportBackpack` (parameterised by the quantity parser), the weight method `WeightInGrams` and the lemmas about the built backpack.
- `lpscraper.dfy` (module `LpScraper`) and `lpscraper_legacy.dfy` (module `LpScraperLegacy`) hold the two nested-loop methods. Each is proved equal to `ImportBackpack` with its own quantity parser.

## How the model follows the code

- Python truthiness is written out (`ExcelImport.Truthy`): `None`, `''` and `0` are false.
- `new_my_gear_cat_id` returns `False` when all 1000 ids are taken.
  - The call at `app/functions/excel_import.py:40` stores that value unchecked as the synthetic category's id. The model keeps it as `CatFalse`.
  - Because `False == 0` in Python, later scans treat `CatFalse` as the id 0 (`CatKey`).
- When every item id is taken, the item keeps `final_id = None` and nothing is raised (`ItemNone`). `None` never equals a candidate id.
- Category ids are unique after an import only while some id below 1000 is free for the synthetic category. When the existing categories use all 1000 ids, it gets False, which equals the existing id 0, and an import without marker rows still succeeds (`SyntheticIdCollidesWhenExhausted`). `ImportCategoryIdsDistinct` therefore assumes a free id.
- The test `if not new_id` is modelled literally: it fails on `False` and on 0. `MarkerIdNeverZero` shows that 0 cannot occur there, so the error means that all ids are taken.
- A marker row's new category name is the raw description cell, whatever its type (`Category.name` is a `Cell`).
- A unit other than `g`, `kg`, `oz` and `lb` leaves the parsed weight unchanged, since the chain of `elif` has no `else`.
- Only column A's length is validated. `zip` then stops at the shortest of the three columns (`Zip`).
- The constants `item_max_name_len`, `item_max_description_len` and `item_max_weight` are parameters (`Limits`).

## Model

| member | source | states |
|---|---|---|
| ExcelImport.ValidateExcelFile | app/functions/excel_import.py:11-16 | the columns pass exactly when column A has 1 to 2000 cells, and are then returned unchanged; more than 2000 gives "too many items", none gives "no items provided" |
| ExcelImportProofs.ImportRowCountErrors | app/functions/excel_import.py:12-15 | the whole import fails with TooManyItems above 2000 rows and with NoItemsProvided on an empty column A |
| ExcelImport.Zip | app/functions/excel_import.py:43 | the rows are the cell triples at equal positions, as many as the shortest column |
| ExcelImport.LeastFreeFrom | app/functions/excel_import.py:23-26 | a scan from `from` returns a free value below the bound with every value between `from` and it taken, or none when every value from `from` to the bound is taken |
| ExcelImport.LeastFree | app/functions/excel_import.py:23-26 | the result is the least id in [0, bound) not in use, and it is absent exactly when all are in use |
| ExcelImport.NewMyGearCatId | app/functions/excel_import.py:19-26 | the returned id is the least value in [0, 1000) that is no category's id, and nothing is returned exactly when all 1000 are taken |
| ExcelImport.CollectItemIds | app/functions/excel_import.py:32-35 | the collected set is the set of numeric item ids over all items of all existing categories |
| ExcelImport.AddItemIds | app/functions/excel_import.py:34-35 | the inner loop adds the numeric ids of one category's items to the collected set, and nothing else |
| ExcelImport.NumericIdsAppend | app/functions/excel_import.py:33-35 | the ids of two item lists put together are the ids of the one plus the ids of the other |
| ExcelImport.AllocateItemId | app/functions/excel_import.py:51-60 | the id is the least free value below 10000 (None when there is none), and exactly that value is added to the used set |
| ExcelImport.Prefix | app/functions/excel_import.py:61-64 | a slice `s[:n]` is the prefix of `s` of length min(len(s), n) |
| ExcelImport.Truncate | app/functions/excel_import.py:52-64 | a text cell becomes a prefix of itself of length at most the cap: the whole text when it fits, exactly the cap otherwise; any other cell becomes "" |
| ExcelImportProofs.TruncateIdempotent | app/functions/excel_import.py:61-64 | truncating an already truncated name or description changes nothing |
| ExcelImport.ClampWeight | app/functions/excel_import.py:54-69 | an integer weight becomes the weight itself or the cap, whichever is not above the other, with no lower bound; any other cell gives 0 |
| ExcelImportProofs.ClampWeightIdempotent | app/functions/excel_import.py:65-69 | with a non-negative cap, clamping a clamped weight changes nothing |
| ExcelImport.Step | app/functions/excel_import.py:44-74 | one row: only a marker row can fail, and only with "can't find new id for category"; a marker row that succeeds appends exactly one category and leaves the earlier ones and the item ids alone; any other row keeps the number, ids and names of the categories |
| ExcelImport.Run | app/functions/excel_import.py:37-74 | the loop over the rows fails only with "can't find new id for category"; when it succeeds the synthetic category is still first, with its name and with the id the first scan gave it |
| ExcelImport.RunFailureIsFinal | app/functions/excel_import.py:46-47 | once a row has raised, the rows after it do not change the outcome |
| ExcelImport.ImportFromExcel | app/functions/excel_import.py:29-75 | the import reports a validation error unchanged, otherwise fails only for want of a category id; on success the existing list is an unchanged prefix of the result, followed by the synthetic category |
| ExcelImport.ImportRow | app/functions/excel_import.py:44-74 | one row of the loop, with its id scans and truncation, has the effect the fold step specifies |
| ExcelImport.ScrapeDataFromExcel | app/functions/excel_import.py:29-75 | the imperative merge returns exactly the specified import: an error from validation or a failed category id, or the existing list followed by the new categories |
| ExcelImportProofs.CatIdsMembership | app/functions/excel_import.py:20-22 | an id is in the collected list exactly when some category carries it, with False counting as 0 |
| ExcelImportProofs.NumericIdsMembership | app/functions/excel_import.py:33-57 | an integer is among the item ids exactly when some item carries it as a number; a None id matches nothing |
| ExcelImportProofs.AppendItemEffect | app/functions/excel_import.py:71-74 | appending to the last new category keeps every category's id and name, appends the item to the flattened items and changes no earlier category |
| ExcelImportProofs.MarkerIdNeverZero | app/functions/excel_import.py:40-46 | once the synthetic category holds the first scan's result, 0 is in use, so a marker row's scan never returns 0 |
| ExcelImportProofs.MarkerRowFailsIffExhausted | app/functions/excel_import.py:44-48 | a marker row raises exactly when all 1000 category ids are taken by the existing and new categories |
| ExcelImportProofs.MarkerStepCategories | app/functions/excel_import.py:44-48 | a marker row adds one category, named by its description cell, with a fresh non-zero id below 1000 |
| ExcelImportProofs.OtherStepCategories | app/functions/excel_import.py:49-74 | a non-marker row keeps the number, names and ids of the categories |
| ExcelImportProofs.RunCategories | app/functions/excel_import.py:37-48 | after any rows: the synthetic category first with the least free id, then one category per marker row in order, named by its description, each with a fresh id |
| ExcelImportProofs.ItemStepEffect | app/functions/excel_import.py:50-74 | an item row always succeeds, appends one normalised item with the least free id, and adds that id to the used set |
| ExcelImportProofs.ItemsInvExtend | app/functions/excel_import.py:56-74 | one more normalised item with the least free id, whose id joins the used set, keeps the item invariant |
| ExcelImportProofs.ItemStepItems | app/functions/excel_import.py:50-74 | an item row keeps the item invariant: used set, least-free allocation and normalisation |
| ExcelImportProofs.OtherStepItems | app/functions/excel_import.py:44-50 | a marker row or a blank row adds no item and keeps the item invariant |
| ExcelImportProofs.RunItems | app/functions/excel_import.py:32-74 | after any rows, the new items are the item rows in order, each normalised, each with the least id not used by existing items or earlier new items |
| ExcelImportProofs.NewCategoryIdsDistinct | app/functions/excel_import.py:40-48 | the new category ids are pairwise different, and each id from a marker row is a number that no existing category carries |
| ExcelImportProofs.NewItemIdsFreshAndDistinct | app/functions/excel_import.py:56-60 | each numeric new item id is below 10000, not an existing item's id and different from every earlier new item's id; a None id appears only when all 10000 are taken |
| ExcelImportProofs.RunFailsOnlyAtMarker | app/functions/excel_import.py:46-47 | the fold can fail only with "can't find new id for category", and only when some row is a marker |
| ExcelImportProofs.ImportWithoutMarkersSucceeds | app/functions/excel_import.py:29-75 | a valid sheet with no `kategoria` row is always imported |
| ExcelImportProofs.ImportKeepsExistingPrefix | app/functions/excel_import.py:37-75 | the output is the existing list unchanged, then the synthetic category with the least free id, then one category per marker row named by its description |
| ExcelImportProofs.ImportItemsFollowRows | app/functions/excel_import.py:50-75 | existing items are kept, and the new items are exactly the item rows in order, each normalised from its row |
| ExcelImportProofs.ImportCategoryIdsDistinct | app/functions/excel_import.py:37-75 | when existing category ids are distinct and some id is free, all category ids of the output are distinct |
| ExcelImportProofs.SyntheticIdCollidesWhenExhausted | app/functions/excel_import.py:19-41 | when the existing categories use every id below 1000 the synthetic category gets False, which equals an existing id 0, so a successful import then holds two categories with equal ids |
| ExcelImportProofs.ImportItemIdsDistinct | app/functions/excel_import.py:32-75 | when existing numeric item ids are distinct, the numeric item ids of the whole output are distinct |
| ExcelImportProofs.RunAppendsToCurrentCategory | app/functions/excel_import.py:49-74 | an item row lands in the most recently created category and changes no other; a blank non-marker row changes nothing |
| ExcelImportProofs.ExampleFirstItems | app/tests/test_views.py:23-24 | the test's first two rows become items 0 and 1 of the synthetic category |
| ExcelImportProofs.ExampleMarker | app/tests/test_views.py:25 | the test's marker row opens category 1 named "nazwa kategorii" |
| ExcelImportProofs.ExampleSpreadsheet | app/tests/test_views.py:17-48 | the test's four-row sheet gives two categories, and "karimata" with description "decathlon" and weight 11 lands in the second |
| Lighterpack.WeightInGrams | app/functions/lpscraper.py:72-83 | an empty weight counts as 0, the parsed weight is multiplied by the unit's multiplier, and an unparsable weight gives nothing |
| Lighterpack.ConvertWeight | app/functions/lpscraper.py:72-83 | the weight converts exactly when it is empty or float() accepts it; an empty weight is 0 grams; otherwise it is the parsed number times the unit's multiplier |
| Lighterpack.UnitConversions | app/functions/lpscraper.py:76-83 | for any weight float() accepts: g multiplies by 1, kg by 1000, oz by 28.35 and lb by 453.59, and an unknown unit leaves the number unchanged; an empty weight is 0 in any unit; worked cases for 2 kg, 1 lb and 1 oz |
| Lighterpack.ImportOutcomes | app/functions/lpscraper.py:53-95 | no scrape result gives False; a ValueError is raised exactly when some item's weight or quantity does not parse; otherwise the backpack is built |
| Lighterpack.ImportBackpack | app/functions/lpscraper.py:52-95 | nothing is built exactly when there is no scrape result; a built backpack has the scraped name and description and one category per scraped category |
| Lighterpack.ConvertItems | app/functions/lpscraper.py:71-94 | a category gets one output item per scraped item |
| Lighterpack.ConvertCategories | app/functions/lpscraper.py:64-69 | the output list gets one category per scraped category |
| Lighterpack.ConvertCategoryAt | app/functions/lpscraper.py:63-94 | output category i has id i, the scraped name, and its items numbered from the count of items in the categories before it |
| Lighterpack.ConvertItemsShape | app/functions/lpscraper.py:71-94 | a category's items are converted one for one, in order, with consecutive ids from the counter's value |
| Lighterpack.ConvertCategoriesShape | app/functions/lpscraper.py:64-69 | the list has one category per scraped category; the one at index i has id i, the scraped name, and item ids starting after all earlier categories' items |
| Lighterpack.BackpackShape | app/functions/lpscraper.py:57-94 | name and description are copied; category i has id i and the scraped name; every item keeps its position, name, description, worn and consumable, and has the converted weight, the parsed quantity and the id equal to its position in the flattened list |
| Lighterpack.FlattenedIdsConsecutive | app/functions/lpscraper.py:63-94 | over the flattened items the ids run 0..N-1, N being the number of scraped items |
| Lighterpack.TotalItemsMonotone | app/functions/lpscraper.py:63-94 | the counter after a category's items never exceeds its value at any later category |
| Lighterpack.ItemIdsDistinct | app/functions/lpscraper.py:63-94 | no two items of the built backpack share an id |
| Lighterpack.ConvertItemsExtend | app/functions/lpscraper.py:85-94 | converting one more item appends its output under the next counter value |
| Lighterpack.ConvertCategoriesExtend | app/functions/lpscraper.py:64-69 | converting one more category appends it under the next index, its items numbered after all earlier ones |
| Lighterpack.VariantsAgree | app/lpscraper.py:85 | wherever the int-quantity copy builds a backpack, the float copy builds the same one, with each quantity taken as a float |
| Lighterpack.QuantityParsingDiffers | app/lpscraper.py:85 | a quantity of 1.5 raises ValueError in the int copy, while the float copy builds the backpack |
| LpScraper.ImportBackpackFromLp | app/functions/lpscraper.py:52-95 | the imperative builder returns exactly the specified outcome with float quantities: False for no scrape, ValueError on an unparsable weight or quantity, otherwise the built backpack |
| LpScraperLegacy.ImportBackpackFromLp | app/lpscraper.py:51-88 | the older builder, with its explicit category counter and int quantities, returns exactly the specified outcome with int quantities |

## Left out

- Reading the workbook with `openpyxl.load_workbook`, and the ".xlsx extension" error raised when reading fails (`app/functions/excel_import.py:7-10`), are a foreign library call. The model starts from the three cell columns.
- `scrape_backpack` in both lighterpack files is left out: an HTTP request with up to ten attempts on connection errors, then HTML parsing. Its result is an input of the model, `Option<ScrapedList>`, where None stands for every falsy result.
- Text-to-number parsing by `float()` and `int()` is abstracted. A weight or quantity text is one of: empty, an integral number, a decimal number, or text neither accepts (`NumText`). The exact grammar Python accepts is not modelled.
- Lighterpack.WeightInGrams: weights are real numbers, so the model does not capture IEEE rounding of the multiplication.
- The overwrite of `item['weight']` in the scraped dict is modelled as a local variable, because that dict is built inside the call and nobody reads it afterwards.
- In the spreadsheet, a Python `bool` cell value counts as an `int` for the weight check; the model does not distinguish booleans from other integers.
- Cell values other than text and integers (floats, dates) are kept only for their truth value (`Cell.Other`).
- Fields of an existing category or item other than the id, name and items are not modelled.
- The existing `private_gear` is assumed to match `Category` and `Item`: every category has an id that is an int or False and a list of items, and every item is a record whose id is an int or None. The stored list is schema-less JSON that the code does not validate. On malformed entries the code raises TypeError or KeyError (`app/functions/excel_import.py:22`, `:35`); the model leaves those errors out. Ids of other JSON types (`True`, `1.0`, or the text `"1"`) and how they compare in the scans are not modelled either.
- The `ValidationError` payloads are modelled as the three error constants, not as the dictionaries.
- The Django views, serializers, models, permissions, URL configuration, settings, e-mail functions and the seeding script are framework wiring and I/O, and are not part of this model.
