# bei_yetu data layer in Dafny

This project models the data layer of the bei_yetu shopping-catalog app, an Android demo written in Kotlin:

- the home screen's state container `HomeViewModel`, which seeds a local Room store on first run and publishes the joined product list or a search over it;
- the product-detail screen's comment list `ProductDetailViewModel`;
- the category record `CategoriesEntity`.

Every type and operation is modelled in the form the source uses:

- **Entities** (`entities.dfy`): the records as datatypes. A category's `id` defaults to the sentinel 0. A price is a whole number of cents, and an image is a symbolic drawable handle. `ProductEntity` and `ProductWithName` are declared from their uses at HomeViewModel.kt:87 and :112; `ProductEntity.id` is assumed auto-generated like `CategoriesEntity.id`.
- **Text** (`text.dfy`): Kotlin's `String.contains(other, ignoreCase = true)`, with ASCII case folding. It is stated as a recursive search and proved equal to "some window equals the query up to case".
- **Store** (`store.dfy`): the Room DAOs `ProductDao` and `CategoriesDao` become a class `Database` holding two tables as sequences.
  - Each table has its primary-key constraint.
  - Insertion is auto-increment: the sentinel id 0 gets a fresh key. With no deletes, SQLite's AUTOINCREMENT counter equals the largest key so far (or 0), and the generated key is one more. An explicit key that is already taken is refused.
  - Rows are read back through the inner join on `categoryId = id`.
- **Home** (`home.dfy`, module `Home`): the class `HomeViewModel` with the store and the published list as fields.
  - Its constructor runs the `init` block: seed each table only when its count is 0, then publish the join.
  - It has methods for `insertDefaultCategories`, `insertDefaultProducts`, `loadAllProducts` and `searchProducts`.
  - The search is the function `Filter`. Lemmas prove that `Filter` keeps exactly the matching rows and keeps their order (a subsequence), that it is idempotent, that it distributes over concatenation, and that the case of the query is irrelevant.
- **HomeScenarios** (`home.dfy`): concrete runs on the seed data.
  - A first launch on an empty store publishes the six seeded rows with the right category names. A relaunch seeds nothing.
  - "SAMSUNG" finds the two Samsung rows, "milk" finds only "Brookside Milk", and "zzz" finds nothing.
  - A seed interrupted after its first category insert is never repaired, and the published list then misses three of the six products.
- **ProductDetails** (`product_details.dfy`): the `Comment` datatype and the class `ProductDetailViewModel`, whose `AddComment` appends. The generated id and the clock reading are parameters. Lemmas say when appending keeps ids distinct and timestamps ordered.

The inner join yields one row per product only when every product's `categoryId` names an existing category (`Store.JoinTotal`). `HomeScenarios.InterruptedSeedIsNotRepaired` shows a reachable store where the join has three rows for six products.

## Model

| member | source | states |
|---|---|---|
| Entities.OmittedIdIsSentinel | app/src/main/java/com/example/projectdraft/CategoriesEntity.kt:8-9 | a category built without an id has id 0 (the "assign one" sentinel) and keeps the given name |
| Text.EqualIgnoreCaseIsLowerEqual | app/src/main/java/com/example/projectdraft/HomeViewModel.kt:112 | two strings are equal ignoring case exactly when their lower-cased forms are equal |
| Text.ContainsIgnoreCaseAt | app/src/main/java/com/example/projectdraft/HomeViewModel.kt:112 | the recursive case-insensitive `contains` holds exactly when some window of the name, as long as the query, equals the query up to case |
| Text.EmptyQueryAlwaysMatches | app/src/main/java/com/example/projectdraft/HomeViewModel.kt:112 | every name contains the empty query |
| Text.QueryCaseIrrelevant | app/src/main/java/com/example/projectdraft/HomeViewModel.kt:112 | a name contains a query exactly when it contains the lower-cased query |
| Text.WindowMatches | app/src/main/java/com/example/projectdraft/HomeViewModel.kt:112 | a string with a window equal to the query up to case contains the query |
| Text.AbsentLetterRulesOutMatch | app/src/main/java/com/example/projectdraft/HomeViewModel.kt:112 | a string lacking, in both cases, some letter of the query does not contain the query |
| Store.MaxKey | app/src/main/java/com/example/projectdraft/CategoriesEntity.kt:8 | the AUTOINCREMENT counter is non-negative, at least every key, and either 0 or one of the keys |
| Store.NextKey | app/src/main/java/com/example/projectdraft/CategoriesEntity.kt:8 | the generated key is positive, larger than every key in the table, and so not already taken |
| Store.AssignKey | app/src/main/java/com/example/projectdraft/CategoriesEntity.kt:8 | an insert is refused exactly when an explicit key is already taken; otherwise the key it gets is fresh, it is the explicit key when one was given, and it is the generated key for the sentinel 0 |
| Store.NextKeyAfterGenerated | app/src/main/java/com/example/projectdraft/CategoriesEntity.kt:8 | after a generated key is used, the next generated key is one larger, so generated keys are consecutive |
| Store.NextKeyOfEmpty | app/src/main/java/com/example/projectdraft/CategoriesEntity.kt:8 | an empty table generates the key 1 first |
| Store.AppendFreshKeepsUnique | app/src/main/java/com/example/projectdraft/CategoriesEntity.kt:8 | adding a key not yet in the table keeps the primary key unique |
| Store.JoinOneHas | app/src/main/java/com/example/projectdraft/HomeViewModel.kt:98 | a category whose key equals the product's categoryId produces a row with that category's name |
| Store.JoinOneOnly | app/src/main/java/com/example/projectdraft/HomeViewModel.kt:98 | every row produced for a product comes from a category with a matching key and carries its name |
| Store.JoinOneMembership | app/src/main/java/com/example/projectdraft/HomeViewModel.kt:98 | for one product, the two directions above as an if-and-only-if |
| Store.JoinHas | app/src/main/java/com/example/projectdraft/HomeViewModel.kt:98 | every product and category with matching keys produce a row of the joined read |
| Store.JoinOnly | app/src/main/java/com/example/projectdraft/HomeViewModel.kt:98 | every row of the joined read comes from some product and some category with matching keys |
| Store.JoinMembership | app/src/main/java/com/example/projectdraft/HomeViewModel.kt:98 | the joined read is the inner join on categoryId = id: a row is in it exactly when a matching product and category produce it |
| Store.Lookup | app/src/main/java/com/example/projectdraft/HomeViewModel.kt:98 | a category is found exactly when its key is in the table, and the one found is a row of the table with that key |
| Store.JoinOneUnique | app/src/main/java/com/example/projectdraft/HomeViewModel.kt:98 | with unique category keys, a product whose category exists yields exactly one row, carrying that category's name |
| Store.JoinOneEmpty | app/src/main/java/com/example/projectdraft/HomeViewModel.kt:98 | a product whose category does not exist yields no row |
| Store.JoinOneSingle | app/src/main/java/com/example/projectdraft/HomeViewModel.kt:98 | against a one-row category table, a product yields one named row if the keys match, else none |
| Store.JoinStep | app/src/main/java/com/example/projectdraft/HomeViewModel.kt:98 | with unique keys, a last product whose category exists adds exactly its one named row to the join |
| Store.JoinLength | app/src/main/java/com/example/projectdraft/HomeViewModel.kt:98 | with unique keys and every categoryId existing, the join has one row per product |
| Store.JoinRowAt | app/src/main/java/com/example/projectdraft/HomeViewModel.kt:98 | under the same conditions, join row i is product i with its category's name |
| Store.JoinTotal | app/src/main/java/com/example/projectdraft/HomeViewModel.kt:98-101 | under the same conditions, the join has one row per product, in product order, each with its category's name |
| Store.JoinIs | app/src/main/java/com/example/projectdraft/HomeViewModel.kt:98 | under the same conditions, the join equals any list whose row i is product i with its category's name |
| Store.Database.constructor | app/src/main/java/com/example/projectdraft/AppDatabase.kt:8-21 | a new store has two empty tables that satisfy their key constraints |
| Store.Database.CountCategories | app/src/main/java/com/example/projectdraft/HomeViewModel.kt:52 | returns the number of category rows and changes nothing |
| Store.Database.CountProducts | app/src/main/java/com/example/projectdraft/HomeViewModel.kt:56 | returns the number of product rows and changes nothing |
| Store.Database.InsertCategory | app/src/main/java/com/example/projectdraft/HomeViewModel.kt:75-80 | stores the row under the key AssignKey chooses (or refuses it), keeps the keys unique, and leaves the product table unchanged |
| Store.Database.InsertProduct | app/src/main/java/com/example/projectdraft/HomeViewModel.kt:87-92 | stores the row under the key AssignKey chooses (or refuses it), keeps the keys unique, and leaves the category table unchanged |
| Store.Database.GetAllProductsWithCategoryName | app/src/main/java/com/example/projectdraft/HomeViewModel.kt:98 | returns the inner join of the current tables and changes nothing |
| Home.FilterMembership | app/src/main/java/com/example/projectdraft/HomeViewModel.kt:110-112 | a row is in a search result exactly when it is in the full list and its name contains the query, ignoring case |
| Home.FilterIsSubsequence | app/src/main/java/com/example/projectdraft/HomeViewModel.kt:110-112 | a search result is a subsequence of the full list, so matching rows keep their relative order |
| Home.FilterKeepsEveryMatch | app/src/main/java/com/example/projectdraft/HomeViewModel.kt:110-112 | a search result has as many rows as the full list has matching rows, duplicates included |
| Home.FilterIdempotent | app/src/main/java/com/example/projectdraft/HomeViewModel.kt:110-112 | searching a search result again with the same query changes nothing |
| Home.FilterAppend | app/src/main/java/com/example/projectdraft/HomeViewModel.kt:110-112 | searching a concatenation concatenates the searches of its parts |
| Home.EmptyQueryKeepsAll | app/src/main/java/com/example/projectdraft/HomeViewModel.kt:110-112 | the empty query keeps the whole list, so it publishes what a full reload publishes |
| Home.FilterQueryCaseIrrelevant | app/src/main/java/com/example/projectdraft/HomeViewModel.kt:110-112 | a query and its lower-cased form give the same result |
| Home.DocumentedIdMapping | app/src/main/java/com/example/projectdraft/HomeViewModel.kt:66-80 | the six names inserted in order into an empty table get the documented ids 1 Electronics to 6 Organic |
| Home.SeedProductsReferToSeedCategories | app/src/main/java/com/example/projectdraft/HomeViewModel.kt:87-92 | there are six seeded products, with categoryIds 2, 1, 3, 1, 4, 1, all within 1..6, so every one refers to an existing seeded category |
| Home.NextKeyAfterNumbered | app/src/main/java/com/example/projectdraft/HomeViewModel.kt:75-80 | after rows with consecutive generated keys, the next generated key follows them |
| Home.NextKeyAfterNumberedProducts | app/src/main/java/com/example/projectdraft/HomeViewModel.kt:87-92 | the same for the product table |
| Home.HomeViewModel.constructor | app/src/main/java/com/example/projectdraft/HomeViewModel.kt:47-64 | each table is seeded with its six rows, keyed consecutively from 1, exactly when its count was 0 and is otherwise left unchanged; then the published list is the join of the tables |
| Home.HomeViewModel.InsertDefaultCategories | app/src/main/java/com/example/projectdraft/HomeViewModel.kt:73-82 | appends the six default category names, in order, under consecutive fresh keys after whatever the table held, with no guard; the product table is unchanged |
| Home.HomeViewModel.InsertNextCategory | app/src/main/java/com/example/projectdraft/HomeViewModel.kt:75-80 | one seed insert stores the name under the next consecutive key |
| Home.HomeViewModel.InsertDefaultProducts | app/src/main/java/com/example/projectdraft/HomeViewModel.kt:84-94 | appends the six default products, in order, under consecutive fresh keys after whatever the table held, with no guard; the category table is unchanged |
| Home.HomeViewModel.InsertNextProduct | app/src/main/java/com/example/projectdraft/HomeViewModel.kt:87-92 | one seed insert stores the product under the next consecutive key |
| Home.HomeViewModel.LoadAllProducts | app/src/main/java/com/example/projectdraft/HomeViewModel.kt:96-105 | the published list becomes the full join of the current tables, whatever it was before; the store is not modified |
| Home.HomeViewModel.SearchProducts | app/src/main/java/com/example/projectdraft/HomeViewModel.kt:108-121 | the published list becomes the rows of the full join whose names contain the query, ignoring case; the store is not modified |
| HomeScenarios.SeededJoin | app/src/main/java/com/example/projectdraft/HomeViewModel.kt:66-98 | the seeded tables join to the six seeded products with ids 1..6 and category names Pastries, Electronics, Detergents, Electronics, Drinks, Electronics |
| HomeScenarios.SamsungRow | app/src/main/java/com/example/projectdraft/HomeViewModel.kt:88-92 | of the seeded rows, exactly the second and fourth contain "samsung", ignoring case |
| HomeScenarios.MilkRow | app/src/main/java/com/example/projectdraft/HomeViewModel.kt:87-92 | of the seeded rows, exactly the fifth contains "milk", ignoring case |
| HomeScenarios.ZzzRow | app/src/main/java/com/example/projectdraft/HomeViewModel.kt:87-92 | no seeded row contains "zzz" |
| HomeScenarios.FilterSix | app/src/main/java/com/example/projectdraft/HomeViewModel.kt:110-112 | searching a six-row list keeps each row in place or drops it |
| HomeScenarios.SearchSamsungOnSeed | app/src/main/java/com/example/projectdraft/HomeViewModel.kt:88-90 | on the seeded list, "samsung" finds the two Samsung rows, in list order |
| HomeScenarios.SearchCapitalSamsungOnSeed | app/src/main/java/com/example/projectdraft/HomeViewModel.kt:111-112 | "SAMSUNG" finds the same two rows |
| HomeScenarios.SearchMilkOnSeed | app/src/main/java/com/example/projectdraft/HomeViewModel.kt:91 | on the seeded list, "milk" finds only "Brookside Milk" |
| HomeScenarios.SearchZzzOnSeed | app/src/main/java/com/example/projectdraft/HomeViewModel.kt:111-112 | a query no seeded name contains gives the empty list |
| HomeScenarios.JoinSix | app/src/main/java/com/example/projectdraft/HomeViewModel.kt:98 | the join of a six-product table is the per-product rows, in product order |
| HomeScenarios.JoinAgainstElectronicsOnly | app/src/main/java/com/example/projectdraft/HomeViewModel.kt:87-92 | against a category table holding only Electronics, the seeded products join to the three Electronics rows only |
| HomeScenarios.FirstRunThenSearches | app/src/main/java/com/example/projectdraft/HomeViewModel.kt:47-121 | a first launch on an empty store publishes the six seeded rows; a relaunch leaves 6 categories and 6 products; the three searches give the Samsung rows, the milk alone, and nothing |
| HomeScenarios.InterruptedSeedIsNotRepaired | app/src/main/java/com/example/projectdraft/HomeViewModel.kt:52-59 | a store holding only the first seeded category is not re-seeded on launch, and publishes three rows although it holds six products |
| ProductDetails.AppendFreshIdKeepsDistinct | app/src/main/java/com/example/projectdraft/ProductDetailsViewModel.kt:22-28 | appending a comment whose id is new keeps the ids distinct |
| ProductDetails.AppendLaterKeepsOrder | app/src/main/java/com/example/projectdraft/ProductDetailsViewModel.kt:26-28 | appending a comment no older than the last keeps timestamps non-decreasing |
| ProductDetails.ProductDetailViewModel.constructor | app/src/main/java/com/example/projectdraft/ProductDetailsViewModel.kt:17 | the comment list starts empty |
| ProductDetails.ProductDetailViewModel.AddComment | app/src/main/java/com/example/projectdraft/ProductDetailsViewModel.kt:20-29 | appends exactly one comment carrying the given productId, userName and text with the supplied id and timestamp; the old list is a prefix of the new one; nothing is validated and the call cannot fail |
| ProductDetails.TwoComments | app/src/main/java/com/example/projectdraft/ProductDetailsViewModel.kt:20-29 | two comments added in turn give exactly the two comments in insertion order for any supplied ids and clock readings; the ids are distinct when the supplied ids differ, and the timestamps ordered when the clock did not run backwards |
| ProductDetails.BlankComment | app/src/main/java/com/example/projectdraft/ProductDetailsViewModel.kt:20-28 | empty user name and text are accepted like any other |

## Left out

- Coroutine scheduling (`viewModelScope.launch`): every launch runs to completion in program order. The nested launches inside the two seed routines, which in the app can race with the count checks and the load, are concurrency. So is the last-writer-wins outcome of overlapping searches.
- StateFlow observer semantics: `_products` and `_comments` are plain fields that the methods reassign. The read-only public view is the same field. In `ProductDetailViewModel` only `AddComment` assigns it.
- Room wiring: the schema version, the generated DAO code and the `DatabaseProvider` singleton are not part of this model. The DAOs are the abstract store `Store.Database`.
- Store.Database.InsertCategory: the conflict strategy is assumed to be Room's default ABORT. Where Room would throw on an explicit key that is already taken, the model stores nothing and returns `None`. The seed routines only use the sentinel key, so they never hit this case.
- Store failures: every DAO call succeeds. Exceptions Room throws (storage unavailable, `SQLiteConstraintException`) are not modelled, and a taken explicit key yields `None` where Room throws. In the app such an exception escapes the `viewModelScope.launch` blocks uncaught, the published list keeps its last value and the app crashes; the model has no such outcome.
- Store.Join: SQL leaves the row order of the joined read open. The model fixes product order. The order-preserving property of the search is relative to that list.
- Floating-point `price`: modelled as whole cents and never computed with.
- `imageRes`: an opaque drawable handle named after the resource.
- `UUID.randomUUID()` and `System.currentTimeMillis()`: parameters of `AddComment`. Their randomness and time are not modelled. Distinct ids and ordered timestamps are stated only under those assumptions on the supplied values.
- Text.LowerAscii: `ignoreCase = true` folds the full Unicode range. The model folds ASCII letters only.
- Entities.CategoriesEntity: Kotlin's 32-bit `Int` key is an unbounded integer. The overflow of the AUTOINCREMENT counter past 2^31 - 1 is not modelled.
- A crash in the middle of seeding is not modelled as an event. Its aftermath, a partially seeded store, is the starting point of `HomeScenarios.InterruptedSeedIsNotRepaired`.
- UI and theming (`HomePageFragment.kt`, `ui/theme/Theme.kt`), including the global `userName`, are not part of this model.
