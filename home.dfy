/** The home screen's state container (HomeViewModel.kt): it seeds the store
    on first run, and publishes either the full joined product list or the
    part of it whose names match a search query. */
module Home {
  import opened Entities
  import opened Store
  import opened Text

  /** The category names the seed routine inserts, in insertion order. */
  const DefaultCategoryNames: seq<string> :=
    ["Electronics", "Pastries", "Detergents", "Drinks", "Beauty", "Organic"]

  /** The product rows the seed routine inserts, in insertion order. */
  const DefaultProducts: seq<ProductEntity> := [
    ProductEntity(name := "Festive Bread", categoryId := 2, price := 599, imageRes := Drawable("test_bread")),
    ProductEntity(name := "Samsung 55\" TV", categoryId := 1, price := 59999, imageRes := Drawable("test_tv")),
    ProductEntity(name := "Hisense Washing Machine", categoryId := 3, price := 39999, imageRes := Drawable("test_washm")),
    ProductEntity(name := "Samsung Fridge", categoryId := 1, price := 79999, imageRes := Drawable("test_fridge")),
    ProductEntity(name := "Brookside Milk", categoryId := 4, price := 299, imageRes := Drawable("test_milk")),
    ProductEntity(name := "Ramtons Blender", categoryId := 1, price := 4999, imageRes := Drawable("test_blender"))
  ]

  /** The id-to-name table written down beside the seed routine. */
  const DocumentedCategories: seq<CategoriesEntity> := [
    CategoriesEntity(1, "Electronics"), CategoriesEntity(2, "Pastries"), CategoriesEntity(3, "Detergents"),
    CategoriesEntity(4, "Drinks"), CategoriesEntity(5, "Beauty"), CategoriesEntity(6, "Organic")
  ]

  /** Category rows named `names`, keyed consecutively from `first`: what
      inserting the names one by one with the sentinel id stores. */
  function NumberedCategories(names: seq<string>, first: int): seq<CategoriesEntity>
  {
    seq(|names|, i requires 0 <= i < |names| => CategoriesEntity(first + i, names[i]))
  }

  /** The rows `ps`, keyed consecutively from `first`. */
  function NumberedProducts(ps: seq<ProductEntity>, first: int): seq<ProductEntity>
  {
    seq(|ps|, i requires 0 <= i < |ps| => ps[i].(id := first + i))
  }

  // ---------------------------------------------------------------------
  // Search

  /** A published row matches a query when its name contains the query,
      ignoring case. */
  predicate MatchesQuery(row: ProductWithName, query: string)
  {
    ContainsIgnoreCase(row.name, query)
  }

  /** The part of a search result that comes from one row. */
  function Kept(row: ProductWithName, query: string): seq<ProductWithName>
  {
    if MatchesQuery(row, query) then [row] else []
  }

  /** The rows of `rows` that match `query`, in their original order. */
  function Filter(rows: seq<ProductWithName>, query: string): (r: seq<ProductWithName>)
    ensures |r| <= |rows|
  {
    if rows == [] then [] else Kept(rows[0], query) + Filter(rows[1..], query)
  }

  /** A row is in a search result exactly when it is in the list searched and
      its name contains the query, ignoring case. */
  lemma {:induction false} FilterMembership(rows: seq<ProductWithName>, query: string, x: ProductWithName)
    ensures x in Filter(rows, query) <==> x in rows && MatchesQuery(x, query)
  {
    if rows != [] {
      FilterMembership(rows[1..], query, x);
      assert rows == [rows[0]] + rows[1..];
    }
  }

  /** `a` is obtained from `b` by deleting elements: the order of what is
      kept is the order in `b`. */
  predicate IsSubsequence<T(==)>(a: seq<T>, b: seq<T>)
    decreases |b|
  {
    if a == [] then true
    else if b == [] then false
    else (a[0] == b[0] && IsSubsequence(a[1..], b[1..])) || IsSubsequence(a, b[1..])
  }

  /** A search keeps the matching rows in the order the full list has them. */
  lemma {:induction false} FilterIsSubsequence(rows: seq<ProductWithName>, query: string)
    ensures IsSubsequence(Filter(rows, query), rows)
  {
    if rows != [] {
      FilterIsSubsequence(rows[1..], query);
      var rest := Filter(rows[1..], query);
      if MatchesQuery(rows[0], query) {
        assert Filter(rows, query) == [rows[0]] + rest;
        assert ([rows[0]] + rest)[1..] == rest;
      } else {
        assert Filter(rows, query) == rest;
      }
    }
  }

  /** The number of rows of `rows` that match `query`. */
  function CountMatching(rows: seq<ProductWithName>, query: string): nat
  {
    if rows == [] then 0
    else (if MatchesQuery(rows[0], query) then 1 else 0) + CountMatching(rows[1..], query)
  }

  /** A search keeps every matching row, duplicates included. */
  lemma {:induction false} FilterKeepsEveryMatch(rows: seq<ProductWithName>, query: string)
    ensures |Filter(rows, query)| == CountMatching(rows, query)
  {
    if rows != [] {
      FilterKeepsEveryMatch(rows[1..], query);
    }
  }

  /** Searching the result of a search again with the same query changes
      nothing. */
  lemma {:induction false} FilterIdempotent(rows: seq<ProductWithName>, query: string)
    ensures Filter(Filter(rows, query), query) == Filter(rows, query)
  {
    if rows != [] {
      FilterIdempotent(rows[1..], query);
      var rest := Filter(rows[1..], query);
      if MatchesQuery(rows[0], query) {
        var r := [rows[0]] + rest;
        assert Filter(rows, query) == r;
        assert r[0] == rows[0] && r[1..] == rest;
        assert Filter(r, query) == [rows[0]] + Filter(rest, query);
      } else {
        assert Filter(rows, query) == rest;
      }
    }
  }

  /** Searching a concatenation searches each part. */
  lemma {:induction false} FilterAppend(a: seq<ProductWithName>, b: seq<ProductWithName>, query: string)
    ensures Filter(a + b, query) == Filter(a, query) + Filter(b, query)
  {
    if a == [] {
      assert a + b == b;
    } else {
      var ab := a + b;
      assert ab[0] == a[0] && ab[1..] == a[1..] + b;
      FilterAppend(a[1..], b, query);
      var keep := if MatchesQuery(a[0], query) then [a[0]] else [];
      assert Filter(ab, query) == keep + Filter(ab[1..], query);
      assert Filter(a, query) == keep + Filter(a[1..], query);
    }
  }

  /** The empty query keeps the whole list, so searching for "" publishes
      what loading all products publishes. */
  lemma {:induction false} EmptyQueryKeepsAll(rows: seq<ProductWithName>)
    ensures Filter(rows, "") == rows
  {
    if rows != [] {
      EmptyQueryAlwaysMatches(rows[0].name);
      EmptyQueryKeepsAll(rows[1..]);
    }
  }

  /** Typing the query in a different case gives the same result. */
  lemma {:induction false} FilterQueryCaseIrrelevant(rows: seq<ProductWithName>, query: string)
    ensures Filter(rows, query) == Filter(rows, Lower(query))
  {
    if rows != [] {
      QueryCaseIrrelevant(rows[0].name, query);
      FilterQueryCaseIrrelevant(rows[1..], query);
    }
  }

  // ---------------------------------------------------------------------
  // Seed data

  /** Inserting the six names into an empty table gives the documented
      mapping of ids 1 to 6. */
  lemma DocumentedIdMapping()
    ensures NumberedCategories(DefaultCategoryNames, NextKey([])) == DocumentedCategories
  {
  }

  /** Every seeded product refers to one of the six seeded categories. */
  lemma SeedProductsReferToSeedCategories()
    ensures |DefaultProducts| == 6
    ensures seq(6, i requires 0 <= i < 6 => DefaultProducts[i].categoryId) == [2, 1, 3, 1, 4, 1]
    ensures forall i :: 0 <= i < |DefaultProducts| ==> 1 <= DefaultProducts[i].categoryId <= 6
    ensures References(NumberedProducts(DefaultProducts, 1), DocumentedCategories)
  {
    var ids := CategoryIds(DocumentedCategories);
    assert ids == [1, 2, 3, 4, 5, 6];
  }

  // ---------------------------------------------------------------------
  // The state container

  class HomeViewModel {
    /** The store, shared with every other state container of the process. */
    const db: Database
    /** The published product list. */
    var products: seq<ProductWithName>

    /** Seeds each table only when it is empty, then publishes the joined
        list. On a store that already has rows in both tables, neither table
        changes. */
    constructor (db: Database)
      requires db.Valid()
      modifies db
      ensures this.db == db && db.Valid()
      ensures db.categories ==
                if old(|db.categories|) == 0 then NumberedCategories(DefaultCategoryNames, 1)
                else old(db.categories)
      ensures db.products ==
                if old(|db.products|) == 0 then NumberedProducts(DefaultProducts, 1)
                else old(db.products)
      ensures products == Join(db.products, db.categories)
    {
      this.db := db;
      products := [];
      new;
      NextKeyOfEmpty();
      var categoryCount := db.CountCategories();
      if categoryCount == 0 {
        InsertDefaultCategories();
      }
      var productCount := db.CountProducts();
      if productCount == 0 {
        InsertDefaultProducts();
      }
      LoadAllProducts();
    }

    /** Inserts the six default categories, with no check of what the table
        already holds: each call adds six rows under consecutive fresh keys. */
    method InsertDefaultCategories()
      requires db.Valid()
      modifies db
      ensures db.Valid()
      ensures db.categories ==
                old(db.categories) + NumberedCategories(DefaultCategoryNames, NextKey(CategoryIds(old(db.categories))))
      ensures db.products == old(db.products)
    {
      ghost var first := NextKey(CategoryIds(db.categories));
      ghost var before := db.categories;
      InsertNextCategory("Electronics", before, first, []);
      InsertNextCategory("Pastries", before, first, ["Electronics"]);
      InsertNextCategory("Detergents", before, first, ["Electronics", "Pastries"]);
      InsertNextCategory("Drinks", before, first, ["Electronics", "Pastries", "Detergents"]);
      InsertNextCategory("Beauty", before, first, ["Electronics", "Pastries", "Detergents", "Drinks"]);
      InsertNextCategory("Organic", before, first, ["Electronics", "Pastries", "Detergents", "Drinks", "Beauty"]);
      assert ["Electronics", "Pastries", "Detergents", "Drinks", "Beauty"] + ["Organic"] == DefaultCategoryNames;
    }

    /** One insert of the seed routine: after the categories `done` were
        inserted following the rows `before`, inserting `name` with the
        sentinel id stores it under the next consecutive key. */
    method InsertNextCategory(name: string, ghost before: seq<CategoriesEntity>, ghost first: int, ghost done: seq<string>)
      requires db.Valid()
      requires first == NextKey(CategoryIds(before))
      requires db.categories == before + NumberedCategories(done, first)
      modifies db
      ensures db.Valid()
      ensures db.categories == before + NumberedCategories(done + [name], first)
      ensures db.products == old(db.products)
    {
      NextKeyAfterNumbered(before, done, first);
      var _ := db.InsertCategory(CategoriesEntity(name := name));
      assert NumberedCategories(done + [name], first) ==
             NumberedCategories(done, first) + [CategoriesEntity(first + |done|, name)];
    }

    /** Inserts the six default products, with no check of what the table
        already holds: each call adds six rows under consecutive fresh keys. */
    method InsertDefaultProducts()
      requires db.Valid()
      modifies db
      ensures db.Valid()
      ensures db.products ==
                old(db.products) + NumberedProducts(DefaultProducts, NextKey(ProductIds(old(db.products))))
      ensures db.categories == old(db.categories)
    {
      ghost var first := NextKey(ProductIds(db.products));
      ghost var before := db.products;
      InsertNextProduct(DefaultProducts[0], before, first, DefaultProducts[..0]);
      InsertNextProduct(DefaultProducts[1], before, first, DefaultProducts[..1]);
      InsertNextProduct(DefaultProducts[2], before, first, DefaultProducts[..2]);
      InsertNextProduct(DefaultProducts[3], before, first, DefaultProducts[..3]);
      InsertNextProduct(DefaultProducts[4], before, first, DefaultProducts[..4]);
      InsertNextProduct(DefaultProducts[5], before, first, DefaultProducts[..5]);
      assert DefaultProducts[..6] == DefaultProducts;
    }

    /** One insert of the product seed routine, as InsertNextCategory. */
    method InsertNextProduct(p: ProductEntity, ghost before: seq<ProductEntity>, ghost first: int, ghost done: seq<ProductEntity>)
      requires db.Valid()
      requires p.id == 0
      requires first == NextKey(ProductIds(before))
      requires db.products == before + NumberedProducts(done, first)
      modifies db
      ensures db.Valid()
      ensures db.products == before + NumberedProducts(done + [p], first)
      ensures db.categories == old(db.categories)
    {
      NextKeyAfterNumberedProducts(before, done, first);
      var _ := db.InsertProduct(p);
      assert NumberedProducts(done + [p], first) ==
             NumberedProducts(done, first) + [p.(id := first + |done|)];
    }

    /** Publishes the full joined list, replacing whatever was published;
        the store is not changed. */
    method LoadAllProducts()
      modifies this
      ensures products == Join(db.products, db.categories)
    {
      var allProducts := db.GetAllProductsWithCategoryName();
      products := allProducts;
    }

    /** Publishes the rows of the full joined list whose names contain
        `query`, ignoring case, replacing whatever was published; the store
        is not changed. */
    method SearchProducts(query: string)
      modifies this
      ensures products == Filter(Join(db.products, db.categories), query)
    {
      var allProducts := db.GetAllProductsWithCategoryName();
      products := Filter(allProducts, query);
    }
  }

  /** After rows keyed consecutively from the generated key `first`, the
      next generated key follows them. */
  lemma {:induction false} NextKeyAfterNumbered(before: seq<CategoriesEntity>, done: seq<string>, first: int)
    requires first == NextKey(CategoryIds(before))
    ensures NextKey(CategoryIds(before + NumberedCategories(done, first))) == first + |done|
  {
    if done == [] {
      assert before + NumberedCategories(done, first) == before;
    } else {
      var n := |done| - 1;
      NextKeyAfterNumbered(before, done[..n], first);
      var rows := before + NumberedCategories(done[..n], first);
      assert before + NumberedCategories(done, first) == rows + [CategoriesEntity(first + n, done[n])];
      CategoryIdsAppend(rows, CategoriesEntity(first + n, done[n]));
      NextKeyAfterGenerated(CategoryIds(rows));
    }
  }

  /** The product-table counterpart of NextKeyAfterNumbered. */
  lemma {:induction false} NextKeyAfterNumberedProducts(before: seq<ProductEntity>, done: seq<ProductEntity>, first: int)
    requires first == NextKey(ProductIds(before))
    ensures NextKey(ProductIds(before + NumberedProducts(done, first))) == first + |done|
  {
    if done == [] {
      assert before + NumberedProducts(done, first) == before;
    } else {
      var n := |done| - 1;
      NextKeyAfterNumberedProducts(before, done[..n], first);
      var rows := before + NumberedProducts(done[..n], first);
      assert before + NumberedProducts(done, first) == rows + [done[n].(id := first + n)];
      ProductIdsAppend(rows, done[n].(id := first + n));
      NextKeyAfterGenerated(ProductIds(rows));
    }
  }
}

/** The seeded store of a first run and what the home screen shows on it. */
module HomeScenarios {
  import opened Entities
  import opened Store
  import opened Text
  import opened Home

  /** The joined list published after the first run: every seeded product
      with the name of the category its `categoryId` stands for. */
  const SeededList: seq<ProductWithName> := [
    ProductWithName(1, "Festive Bread", 2, 599, Drawable("test_bread"), "Pastries"),
    ProductWithName(2, "Samsung 55\" TV", 1, 59999, Drawable("test_tv"), "Electronics"),
    ProductWithName(3, "Hisense Washing Machine", 3, 39999, Drawable("test_washm"), "Detergents"),
    ProductWithName(4, "Samsung Fridge", 1, 79999, Drawable("test_fridge"), "Electronics"),
    ProductWithName(5, "Brookside Milk", 4, 299, Drawable("test_milk"), "Drinks"),
    ProductWithName(6, "Ramtons Blender", 1, 4999, Drawable("test_blender"), "Electronics")
  ]

  /** The category name a seeded product's `categoryId` joins to. */
  lemma SeededCategoryName(cs: seq<CategoriesEntity>, i: nat)
    requires cs == DocumentedCategories && i < 6
    ensures Lookup(cs, DefaultProducts[i].categoryId).value.name == SeededList[i].categoryName
  {
  }

  /** The product fields of a seeded row. */
  lemma SeededProductFields(p: ProductEntity, i: nat)
    requires i < 6 && p == DefaultProducts[i].(id := 1 + i)
    ensures p.id == SeededList[i].id && p.name == SeededList[i].name
    ensures p.categoryId == SeededList[i].categoryId && p.price == SeededList[i].price
    ensures p.imageRes == SeededList[i].imageRes
  {
  }

  /** A join row is determined by its product and category name. */
  lemma JoinRowIs(p: ProductEntity, name: string, expected: ProductWithName)
    requires p.id == expected.id && p.name == expected.name && p.categoryId == expected.categoryId
    requires p.price == expected.price && p.imageRes == expected.imageRes && name == expected.categoryName
    ensures WithCategoryName(p, name) == expected
  {
  }

  /** One row of the seeded join. */
  lemma SeededJoinRow(ps: seq<ProductEntity>, cs: seq<CategoriesEntity>, i: nat)
    requires ps == NumberedProducts(DefaultProducts, 1) && cs == DocumentedCategories && i < 6
    ensures WithCategoryName(ps[i], Lookup(cs, ps[i].categoryId).value.name) == SeededList[i]
  {
    SeededProductFields(ps[i], i);
    SeededCategoryName(cs, i);
    JoinRowIs(ps[i], Lookup(cs, ps[i].categoryId).value.name, SeededList[i]);
  }

  /** Each seeded product joins to the matching row of the published list. */
  lemma SeededJoinRows(ps: seq<ProductEntity>, cs: seq<CategoriesEntity>)
    requires ps == NumberedProducts(DefaultProducts, 1) && cs == DocumentedCategories
    ensures |ps| == |SeededList|
    ensures forall i :: 0 <= i < |ps| ==>
              SeededList[i] == WithCategoryName(ps[i], Lookup(cs, ps[i].categoryId).value.name)
  {
    forall i | 0 <= i < |ps|
      ensures SeededList[i] == WithCategoryName(ps[i], Lookup(cs, ps[i].categoryId).value.name)
    {
      SeededJoinRow(ps, cs, i);
    }
  }

  /** The documented category table has unique keys. */
  lemma DocumentedKeysUnique(cs: seq<CategoriesEntity>)
    requires cs == DocumentedCategories
    ensures KeysUnique(CategoryIds(cs))
  {
  }

  /** Joining the seeded tables gives one row per product with the right
      category name. */
  lemma SeededJoin(ps: seq<ProductEntity>, cs: seq<CategoriesEntity>)
    requires ps == NumberedProducts(DefaultProducts, 1) && cs == DocumentedCategories
    ensures Join(ps, cs) == SeededList
  {
    SeedProductsReferToSeedCategories();
    DocumentedKeysUnique(cs);
    SeededJoinRows(ps, cs);
    JoinIs(ps, cs, SeededList);
  }

  /** The Samsung television's row contains "samsung", ignoring case. */
  lemma SamsungTvHit(rows: seq<ProductWithName>)
    requires rows == SeededList
    ensures MatchesQuery(rows[1], "samsung")
  {
    assert rows[1].name == "" + "Samsung" + " 55\" TV";
    WindowMatches("", "Samsung", " 55\" TV", "samsung");
  }

  /** The Samsung fridge's row contains "samsung", ignoring case. */
  lemma SamsungFridgeHit(rows: seq<ProductWithName>)
    requires rows == SeededList
    ensures MatchesQuery(rows[3], "samsung")
  {
    assert rows[3].name == "" + "Samsung" + " Fridge";
    WindowMatches("", "Samsung", " Fridge", "samsung");
  }

  /** Every other seeded name lacks the letter u, so none contains "samsung". */
  lemma SamsungRowMiss(rows: seq<ProductWithName>, i: nat)
    requires rows == SeededList && i < 6 && i != 1 && i != 3
    ensures !MatchesQuery(rows[i], "samsung")
  {
    var s := rows[i].name;
    // One branch per index, so that each call sees a concrete name.
    if i == 0 {
      AbsentLetterRulesOutMatch(s, "samsung", 4, 'U');
    } else if i == 2 {
      AbsentLetterRulesOutMatch(s, "samsung", 4, 'U');
    } else if i == 4 {
      AbsentLetterRulesOutMatch(s, "samsung", 4, 'U');
    } else {
      AbsentLetterRulesOutMatch(s, "samsung", 4, 'U');
    }
  }

  /** Which seeded rows contain "samsung", ignoring case: only the two
      Samsung ones. */
  lemma SamsungRow(rows: seq<ProductWithName>, i: nat)
    requires rows == SeededList && i < 6
    ensures MatchesQuery(rows[i], "samsung") <==> i == 1 || i == 3
  {
    if i == 1 {
      SamsungTvHit(rows);
    } else if i == 3 {
      SamsungFridgeHit(rows);
    } else {
      SamsungRowMiss(rows, i);
    }
  }

  /** "Brookside Milk" contains "milk", ignoring case. */
  lemma MilkRowHit(rows: seq<ProductWithName>)
    requires rows == SeededList
    ensures MatchesQuery(rows[4], "milk")
  {
    assert rows[4].name == "Brookside " + "Milk" + "";
    WindowMatches("Brookside ", "Milk", "", "milk");
  }

  /** Every other seeded name lacks the letter k, so none contains "milk". */
  lemma MilkRowMiss(rows: seq<ProductWithName>, i: nat)
    requires rows == SeededList && i < 6 && i != 4
    ensures !MatchesQuery(rows[i], "milk")
  {
    var s := rows[i].name;
    // One branch per index, so that each call sees a concrete name.
    if i == 0 {
      AbsentLetterRulesOutMatch(s, "milk", 3, 'K');
    } else if i == 1 {
      AbsentLetterRulesOutMatch(s, "milk", 3, 'K');
    } else if i == 2 {
      AbsentLetterRulesOutMatch(s, "milk", 3, 'K');
    } else if i == 3 {
      AbsentLetterRulesOutMatch(s, "milk", 3, 'K');
    } else {
      AbsentLetterRulesOutMatch(s, "milk", 3, 'K');
    }
  }

  /** Which seeded rows contain "milk", ignoring case: only the milk. */
  lemma MilkRow(rows: seq<ProductWithName>, i: nat)
    requires rows == SeededList && i < 6
    ensures MatchesQuery(rows[i], "milk") <==> i == 4
  {
    if i == 4 {
      MilkRowHit(rows);
    } else {
      MilkRowMiss(rows, i);
    }
  }

  /** None of the first three seeded names contains the letter z. */
  lemma ZzzRowFirstHalf(rows: seq<ProductWithName>, i: nat)
    requires rows == SeededList && i < 3
    ensures !MatchesQuery(rows[i], "zzz")
  {
    var s := rows[i].name;
    // One branch per index, so that each call sees a concrete name.
    if i == 0 {
      AbsentLetterRulesOutMatch(s, "zzz", 0, 'Z');
    } else if i == 1 {
      AbsentLetterRulesOutMatch(s, "zzz", 0, 'Z');
    } else {
      AbsentLetterRulesOutMatch(s, "zzz", 0, 'Z');
    }
  }

  /** None of the last three seeded names contains the letter z. */
  lemma ZzzRowSecondHalf(rows: seq<ProductWithName>, i: nat)
    requires rows == SeededList && 3 <= i < 6
    ensures !MatchesQuery(rows[i], "zzz")
  {
    var s := rows[i].name;
    // One branch per index, so that each call sees a concrete name.
    if i == 3 {
      AbsentLetterRulesOutMatch(s, "zzz", 0, 'Z');
    } else if i == 4 {
      AbsentLetterRulesOutMatch(s, "zzz", 0, 'Z');
    } else {
      AbsentLetterRulesOutMatch(s, "zzz", 0, 'Z');
    }
  }

  /** No seeded name contains the letter z, so none contains "zzz". */
  lemma ZzzRow(rows: seq<ProductWithName>, i: nat)
    requires rows == SeededList && i < 6
    ensures !MatchesQuery(rows[i], "zzz")
  {
    if i < 3 {
      ZzzRowFirstHalf(rows, i);
    } else {
      ZzzRowSecondHalf(rows, i);
    }
  }


  /** One step of a search: the row at offset `k` contributes itself or
      nothing, ahead of the rest of the result. */
  lemma FilterStep(l: seq<ProductWithName>, k: nat, query: string)
    requires k < |l|
    ensures Filter(l[k..], query) == Kept(l[k], query) + Filter(l[k + 1..], query)
  {
  }

  /** The last three rows of a six-row search. */
  lemma FilterLastThree(l: seq<ProductWithName>, query: string)
    requires |l| == 6
    ensures Filter(l[3..], query) == Kept(l[3], query) + Kept(l[4], query) + Kept(l[5], query)
  {
    assert l[6..] == [];
    FilterStep(l, 5, query);
    assert Filter(l[5..], query) == Kept(l[5], query);
    FilterStep(l, 4, query);
    assert Filter(l[4..], query) == Kept(l[4], query) + Kept(l[5], query);
    FilterStep(l, 3, query);
  }

  /** The first three rows of a six-row search, ahead of the rest. */
  lemma FilterFirstThree(l: seq<ProductWithName>, query: string)
    requires |l| == 6
    ensures Filter(l, query) == Kept(l[0], query) + Kept(l[1], query) + Kept(l[2], query) + Filter(l[3..], query)
  {
    assert l[0..] == l;
    FilterStep(l, 2, query);
    FilterStep(l, 1, query);
    assert Filter(l[1..], query) == Kept(l[1], query) + Kept(l[2], query) + Filter(l[3..], query);
    FilterStep(l, 0, query);
  }

  /** A search on a six-row list, row by row. */
  lemma FilterSix(l: seq<ProductWithName>, query: string)
    requires |l| == 6
    ensures Filter(l, query) ==
              Kept(l[0], query) + Kept(l[1], query) + Kept(l[2], query) +
              Kept(l[3], query) + Kept(l[4], query) + Kept(l[5], query)
  {
    FilterFirstThree(l, query);
    FilterLastThree(l, query);
  }

  /** A six-row search in which exactly the second and fourth rows match. */
  lemma KeptSecondAndFourth(r0: ProductWithName, r1: ProductWithName, r2: ProductWithName,
                            r3: ProductWithName, r4: ProductWithName, r5: ProductWithName, q: string)
    requires !MatchesQuery(r0, q) && MatchesQuery(r1, q) && !MatchesQuery(r2, q)
    requires MatchesQuery(r3, q) && !MatchesQuery(r4, q) && !MatchesQuery(r5, q)
    ensures Kept(r0, q) + Kept(r1, q) + Kept(r2, q) + Kept(r3, q) + Kept(r4, q) + Kept(r5, q) == [r1, r3]
  {
  }

  /** A six-row search in which only the fifth row matches. */
  lemma KeptFifthOnly(r0: ProductWithName, r1: ProductWithName, r2: ProductWithName,
                      r3: ProductWithName, r4: ProductWithName, r5: ProductWithName, q: string)
    requires !MatchesQuery(r0, q) && !MatchesQuery(r1, q) && !MatchesQuery(r2, q)
    requires !MatchesQuery(r3, q) && MatchesQuery(r4, q) && !MatchesQuery(r5, q)
    ensures Kept(r0, q) + Kept(r1, q) + Kept(r2, q) + Kept(r3, q) + Kept(r4, q) + Kept(r5, q) == [r4]
  {
  }

  /** On the seeded list, "samsung" finds both Samsung rows, in list order. */
  lemma SearchSamsungOnSeed(rows: seq<ProductWithName>)
    requires rows == SeededList
    ensures Filter(rows, "samsung") == [rows[1], rows[3]]
  {
    var q := "samsung";
    SamsungRow(rows, 0); SamsungRow(rows, 1); SamsungRow(rows, 2); SamsungRow(rows, 3); SamsungRow(rows, 4); SamsungRow(rows, 5);
    FilterSix(rows, q);
    KeptSecondAndFourth(rows[0], rows[1], rows[2], rows[3], rows[4], rows[5], q);
  }

  lemma LowerSamsung()
    ensures Lower("SAMSUNG") == "samsung"
  {
  }

  /** The query typed in capitals finds the same two rows. */
  lemma SearchCapitalSamsungOnSeed(rows: seq<ProductWithName>)
    requires rows == SeededList
    ensures Filter(rows, "SAMSUNG") == [rows[1], rows[3]]
  {
    SearchSamsungOnSeed(rows);
    FilterQueryCaseIrrelevant(rows, "SAMSUNG");
    LowerSamsung();
  }

  /** On the seeded list, "milk" finds only "Brookside Milk". */
  lemma SearchMilkOnSeed(rows: seq<ProductWithName>)
    requires rows == SeededList
    ensures Filter(rows, "milk") == [rows[4]]
    ensures rows[4].name == "Brookside Milk"
  {
    var q := "milk";
    MilkRow(rows, 0); MilkRow(rows, 1); MilkRow(rows, 2); MilkRow(rows, 3); MilkRow(rows, 4); MilkRow(rows, 5);
    FilterSix(rows, q);
    KeptFifthOnly(rows[0], rows[1], rows[2], rows[3], rows[4], rows[5], q);
  }

  /** On the seeded list, a query no name contains finds nothing. */
  lemma SearchZzzOnSeed(rows: seq<ProductWithName>)
    requires rows == SeededList
    ensures Filter(rows, "zzz") == []
  {
    ZzzRow(rows, 0); ZzzRow(rows, 1); ZzzRow(rows, 2); ZzzRow(rows, 3); ZzzRow(rows, 4); ZzzRow(rows, 5);
    FilterSix(rows, "zzz");
  }

  /** Extending a prefix of the product table by one product extends its
      join by that product's rows. */
  lemma JoinPrefixStep(ps: seq<ProductEntity>, cs: seq<CategoriesEntity>, k: nat)
    requires k < |ps|
    ensures Join(ps[..k + 1], cs) == Join(ps[..k], cs) + JoinOne(ps[k], cs)
  {
    assert ps[..k + 1][..k] == ps[..k];
    JoinLast(ps[..k + 1], cs);
  }

  /** The join of the first three products of a six-row table. */
  lemma JoinFirstThree(ps: seq<ProductEntity>, cs: seq<CategoriesEntity>)
    requires |ps| == 6
    ensures Join(ps[..3], cs) == JoinOne(ps[0], cs) + JoinOne(ps[1], cs) + JoinOne(ps[2], cs)
  {
    assert ps[..0] == [];
    JoinPrefixStep(ps, cs, 0);
    assert Join(ps[..1], cs) == JoinOne(ps[0], cs);
    JoinPrefixStep(ps, cs, 1);
    assert Join(ps[..2], cs) == JoinOne(ps[0], cs) + JoinOne(ps[1], cs);
    JoinPrefixStep(ps, cs, 2);
  }

  /** The join of a six-row product table, product by product. */
  lemma JoinSix(ps: seq<ProductEntity>, cs: seq<CategoriesEntity>)
    requires |ps| == 6
    ensures Join(ps, cs) == JoinOne(ps[0], cs) + JoinOne(ps[1], cs) + JoinOne(ps[2], cs) +
                            JoinOne(ps[3], cs) + JoinOne(ps[4], cs) + JoinOne(ps[5], cs)
  {
    assert ps[..6] == ps;
    JoinFirstThree(ps, cs);
    JoinPrefixStep(ps, cs, 3);
    assert Join(ps[..4], cs) == JoinOne(ps[0], cs) + JoinOne(ps[1], cs) + JoinOne(ps[2], cs) + JoinOne(ps[3], cs);
    JoinPrefixStep(ps, cs, 4);
    assert Join(ps[..5], cs) == JoinOne(ps[0], cs) + JoinOne(ps[1], cs) + JoinOne(ps[2], cs) +
                                JoinOne(ps[3], cs) + JoinOne(ps[4], cs);
    JoinPrefixStep(ps, cs, 5);
  }

  /** The category keys the seeded products carry, one by one. */
  lemma SeededCategoryIds(ps: seq<ProductEntity>)
    requires ps == NumberedProducts(DefaultProducts, 1)
    ensures |ps| == 6
    ensures ps[0].categoryId == 2 && ps[1].categoryId == 1 && ps[2].categoryId == 3
    ensures ps[3].categoryId == 1 && ps[4].categoryId == 4 && ps[5].categoryId == 1
  {
  }

  /** A seeded product of category 1 joins to the published row. */
  lemma ElectronicsRow(ps: seq<ProductEntity>, i: nat)
    requires ps == NumberedProducts(DefaultProducts, 1) && (i == 1 || i == 3 || i == 5)
    ensures WithCategoryName(ps[i], "Electronics") == SeededList[i]
  {
    SeededProductFields(ps[i], i);
    JoinRowIs(ps[i], "Electronics", SeededList[i]);
  }

  /** When only the first category row exists, the seeded products join to
      the three Electronics rows and the other three products drop out. */
  lemma JoinAgainstElectronicsOnly(ps: seq<ProductEntity>, cs: seq<CategoriesEntity>)
    requires ps == NumberedProducts(DefaultProducts, 1) && cs == [CategoriesEntity(1, "Electronics")]
    ensures Join(ps, cs) == [SeededList[1], SeededList[3], SeededList[5]]
  {
    SeededCategoryIds(ps);
    JoinSix(ps, cs);
    var c := CategoriesEntity(1, "Electronics");
    JoinOneSingle(ps[0], c); JoinOneSingle(ps[1], c); JoinOneSingle(ps[2], c);
    JoinOneSingle(ps[3], c); JoinOneSingle(ps[4], c); JoinOneSingle(ps[5], c);
    ElectronicsRow(ps, 1); ElectronicsRow(ps, 3); ElectronicsRow(ps, 5);
  }

  /** A seed interrupted after its first category insert: the category table
      is not empty, so a relaunch does not repair it, and the published list
      then holds three rows although the store holds six products. */
  method InterruptedSeedIsNotRepaired() returns (all: seq<ProductWithName>, categoryCount: nat, productCount: nat)
    ensures categoryCount == 1 && productCount == 6
    ensures all == [SeededList[1], SeededList[3], SeededList[5]]
    ensures |all| < productCount
  {
    var db := new Database();
    NextKeyOfEmpty();
    var _ := db.InsertCategory(CategoriesEntity(name := "Electronics"));
    var home := new HomeViewModel(db);
    categoryCount := db.CountCategories();
    productCount := db.CountProducts();
    JoinAgainstElectronicsOnly(db.products, db.categories);
    all := home.products;
  }

  /** A first launch on an empty store, a second launch on the same store,
      and three searches: the first launch publishes the six seeded rows, the
      second seeds nothing, and the searches find the Samsung rows whatever
      the case of the query, the milk alone, and nothing for "zzz". */
  method FirstRunThenSearches() returns (all: seq<ProductWithName>, categoryCount: nat, productCount: nat,
                                         samsung: seq<ProductWithName>, milk: seq<ProductWithName>,
                                         none: seq<ProductWithName>)
    ensures all == SeededList
    ensures categoryCount == 6 && productCount == 6
    ensures samsung == [all[1], all[3]]
    ensures milk == [all[4]] && all[4].name == "Brookside Milk"
    ensures none == []
  {
    var db := new Database();
    var home := new HomeViewModel(db);
    DocumentedIdMapping();
    SeededJoin(db.products, db.categories);
    all := home.products;
    var relaunched := new HomeViewModel(db);
    categoryCount := db.CountCategories();
    productCount := db.CountProducts();
    relaunched.SearchProducts("SAMSUNG");
    samsung := relaunched.products;
    SearchCapitalSamsungOnSeed(all);
    relaunched.SearchProducts("milk");
    milk := relaunched.products;
    SearchMilkOnSeed(all);
    relaunched.SearchProducts("zzz");
    none := relaunched.products;
    SearchZzzOnSeed(all);
  }
}
