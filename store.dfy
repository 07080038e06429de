/** The local store behind the home screen, as the Room data-access objects
    ProductDao and CategoriesDao present it: two tables with auto-generated
    integer keys, row counts, single-row inserts and the inner join of
    products against categories on `categoryId = id`. */
module Store {
  import opened Entities

  datatype Option<T> = None | Some(value: T)

  /** The keys of the category table, in row order. */
  function CategoryIds(cs: seq<CategoriesEntity>): seq<int>
  {
    seq(|cs|, i requires 0 <= i < |cs| => cs[i].id)
  }

  /** The keys of the product table, in row order. */
  function ProductIds(ps: seq<ProductEntity>): seq<int>
  {
    seq(|ps|, i requires 0 <= i < |ps| => ps[i].id)
  }

  /** No key occurs twice: the primary-key constraint. */
  predicate KeysUnique(ks: seq<int>)
  {
    forall i, j :: 0 <= i < j < |ks| ==> ks[i] != ks[j]
  }

  /** The largest key, or 0 when there is no positive one. Because no row is
      ever deleted, this is SQLite's AUTOINCREMENT counter for the table. */
  function MaxKey(ks: seq<int>): (m: int)
    ensures m >= 0
    ensures forall i :: 0 <= i < |ks| ==> ks[i] <= m
    ensures m == 0 || m in ks
  {
    if ks == [] then 0
    else
      var rest := MaxKey(ks[..|ks| - 1]);
      if ks[|ks| - 1] > rest then ks[|ks| - 1] else rest
  }

  /** The key the store generates for the next row inserted with the sentinel 0. */
  function NextKey(ks: seq<int>): (k: int)
    ensures k > 0
    ensures forall i :: 0 <= i < |ks| ==> ks[i] < k
    ensures k !in ks
  {
    MaxKey(ks) + 1
  }

  /** The key a row requesting `requested` is stored under, or None when an
      explicit key is already taken and the insert is refused. */
  function AssignKey(ks: seq<int>, requested: int): (r: Option<int>)
    ensures r.None? <==> requested != 0 && requested in ks
    ensures r.Some? ==> r.value !in ks
    ensures r.Some? && requested != 0 ==> r.value == requested
    ensures requested == 0 ==> r == Some(NextKey(ks))
  {
    if requested == 0 then Some(NextKey(ks))
    else if requested in ks then None
    else Some(requested)
  }

  /** A generated key is one more than the key generated before it, so keys
      handed out in a row are consecutive. */
  lemma NextKeyAfterGenerated(ks: seq<int>)
    ensures NextKey(ks + [NextKey(ks)]) == NextKey(ks) + 1
  {
  }

  /** An empty table hands out the key 1 first. */
  lemma NextKeyOfEmpty()
    ensures NextKey([]) == 1
  {
  }

  /** Adding a key that is not yet taken keeps the keys unique. */
  lemma AppendFreshKeepsUnique(ks: seq<int>, k: int)
    requires KeysUnique(ks) && k !in ks
    ensures KeysUnique(ks + [k])
  {
  }

  lemma CategoryIdsCons(cs: seq<CategoriesEntity>)
    requires cs != []
    ensures CategoryIds(cs) == [cs[0].id] + CategoryIds(cs[1..])
  {
  }

  /** The keys after the first row of a table with unique keys are unique and
      do not contain the first row's key. */
  lemma UniqueTail(ks: seq<int>)
    requires ks != [] && KeysUnique(ks)
    ensures KeysUnique(ks[1..]) && ks[0] !in ks[1..]
  {
  }

  lemma CategoryIdsAppend(cs: seq<CategoriesEntity>, c: CategoriesEntity)
    ensures CategoryIds(cs + [c]) == CategoryIds(cs) + [c.id]
  {
  }

  lemma ProductIdsAppend(ps: seq<ProductEntity>, p: ProductEntity)
    ensures ProductIds(ps + [p]) == ProductIds(ps) + [p.id]
  {
  }

  // ---------------------------------------------------------------------
  // The inner join

  /** The join rows of one product: one per category whose key equals the
      product's `categoryId`, in table order. */
  function JoinOne(p: ProductEntity, cs: seq<CategoriesEntity>): seq<ProductWithName>
  {
    if cs == [] then []
    else (if cs[0].id == p.categoryId then [WithCategoryName(p, cs[0].name)] else []) + JoinOne(p, cs[1..])
  }

  /** The inner join of the product table against the category table on
      `categoryId = id`, product by product in table order. */
  function Join(ps: seq<ProductEntity>, cs: seq<CategoriesEntity>): seq<ProductWithName>
  {
    if ps == [] then [] else Join(ps[..|ps| - 1], cs) + JoinOne(ps[|ps| - 1], cs)
  }

  /** A category whose key matches the product's `categoryId` produces a row
      carrying its name. */
  lemma {:induction false} JoinOneHas(p: ProductEntity, cs: seq<CategoriesEntity>, j: nat)
    requires j < |cs| && cs[j].id == p.categoryId
    ensures WithCategoryName(p, cs[j].name) in JoinOne(p, cs)
  {
    if j > 0 {
      assert cs[1..][j - 1] == cs[j];
      JoinOneHas(p, cs[1..], j - 1);
    }
  }

  /** Every row produced for a product comes from a category whose key
      matches; the lemma names that category's offset. */
  lemma {:induction false} JoinOneOnly(p: ProductEntity, cs: seq<CategoriesEntity>, r: ProductWithName)
    returns (j: nat)
    requires r in JoinOne(p, cs)
    ensures j < |cs| && cs[j].id == p.categoryId && r == WithCategoryName(p, cs[j].name)
  {
    if cs[0].id == p.categoryId && r == WithCategoryName(p, cs[0].name) {
      j := 0;
    } else {
      var k := JoinOneOnly(p, cs[1..], r);
      assert cs[1..][k] == cs[k + 1];
      j := k + 1;
    }
  }

  /** A row is produced for a product exactly when a category with the
      product's `categoryId` exists, and it carries that category's name. */
  lemma {:induction false} JoinOneMembership(p: ProductEntity, cs: seq<CategoriesEntity>, r: ProductWithName)
    ensures r in JoinOne(p, cs) <==>
            exists j :: 0 <= j < |cs| && cs[j].id == p.categoryId && r == WithCategoryName(p, cs[j].name)
  {
    if r in JoinOne(p, cs) {
      var j := JoinOneOnly(p, cs, r);
    }
    if j :| 0 <= j < |cs| && cs[j].id == p.categoryId && r == WithCategoryName(p, cs[j].name) {
      JoinOneHas(p, cs, j);
    }
  }

  /** The join of a non-empty product table: the join of all but its last
      product, then the rows of the last product. */
  lemma JoinLast(ps: seq<ProductEntity>, cs: seq<CategoriesEntity>)
    requires ps != []
    ensures Join(ps, cs) == Join(ps[..|ps| - 1], cs) + JoinOne(ps[|ps| - 1], cs)
  {
  }

  /** Against a one-row category table, a product yields the row with that
      category's name when the keys match, and nothing otherwise. */
  lemma JoinOneSingle(p: ProductEntity, c: CategoriesEntity)
    ensures JoinOne(p, [c]) == if c.id == p.categoryId then [WithCategoryName(p, c.name)] else []
  {
  }

  /** A product and a category with matching keys produce a row of the join. */
  lemma {:induction false} JoinHas(ps: seq<ProductEntity>, cs: seq<CategoriesEntity>, i: nat, j: nat)
    requires i < |ps| && j < |cs| && cs[j].id == ps[i].categoryId
    ensures WithCategoryName(ps[i], cs[j].name) in Join(ps, cs)
  {
    var n := |ps| - 1;
    JoinLast(ps, cs);
    if i == n {
      JoinOneHas(ps[n], cs, j);
    } else {
      assert ps[..n][i] == ps[i];
      JoinHas(ps[..n], cs, i, j);
    }
  }

  /** Every row of the join comes from a product and a category with matching
      keys; the lemma names their offsets. */
  lemma {:induction false} JoinOnly(ps: seq<ProductEntity>, cs: seq<CategoriesEntity>, r: ProductWithName)
    returns (i: nat, j: nat)
    requires r in Join(ps, cs)
    ensures i < |ps| && j < |cs| && cs[j].id == ps[i].categoryId && r == WithCategoryName(ps[i], cs[j].name)
  {
    var n := |ps| - 1;
    JoinLast(ps, cs);
    if r in JoinOne(ps[n], cs) {
      i := n;
      j := JoinOneOnly(ps[n], cs, r);
    } else {
      i, j := JoinOnly(ps[..n], cs, r);
      assert ps[..n][i] == ps[i];
    }
  }

  /** The reference definition of the inner join: a row is in the join exactly
      when some product and some category with matching keys produce it. */
  lemma {:induction false} JoinMembership(ps: seq<ProductEntity>, cs: seq<CategoriesEntity>, r: ProductWithName)
    ensures r in Join(ps, cs) <==>
            exists i, j :: 0 <= i < |ps| && 0 <= j < |cs| && cs[j].id == ps[i].categoryId &&
                           r == WithCategoryName(ps[i], cs[j].name)
  {
    if r in Join(ps, cs) {
      var i, j := JoinOnly(ps, cs, r);
    }
    if i, j :| 0 <= i < |ps| && 0 <= j < |cs| && cs[j].id == ps[i].categoryId &&
               r == WithCategoryName(ps[i], cs[j].name) {
      JoinHas(ps, cs, i, j);
    }
  }

  /** The category stored under `key`, if any (the first one, should keys repeat). */
  function Lookup(cs: seq<CategoriesEntity>, key: int): (r: Option<CategoriesEntity>)
    ensures r.Some? <==> key in CategoryIds(cs)
    ensures r.Some? ==> r.value in cs && r.value.id == key
  {
    if cs == [] then None
    else
      CategoryIdsCons(cs);
      if cs[0].id == key then Some(cs[0]) else Lookup(cs[1..], key)
  }

  /** Every product refers to an existing category key. */
  predicate References(ps: seq<ProductEntity>, cs: seq<CategoriesEntity>)
  {
    forall i :: 0 <= i < |ps| ==> ps[i].categoryId in CategoryIds(cs)
  }

  /** With unique category keys, a product whose category exists yields
      exactly one row, carrying that category's name. */
  lemma {:induction false} JoinOneUnique(p: ProductEntity, cs: seq<CategoriesEntity>)
    requires KeysUnique(CategoryIds(cs))
    requires p.categoryId in CategoryIds(cs)
    ensures JoinOne(p, cs) == [WithCategoryName(p, Lookup(cs, p.categoryId).value.name)]
  {
    CategoryIdsCons(cs);
    UniqueTail(CategoryIds(cs));
    if cs[0].id == p.categoryId {
      JoinOneEmpty(p, cs[1..]);
    } else {
      JoinOneUnique(p, cs[1..]);
    }
  }

  /** A product whose category does not exist yields no row. */
  lemma {:induction false} JoinOneEmpty(p: ProductEntity, cs: seq<CategoriesEntity>)
    requires p.categoryId !in CategoryIds(cs)
    ensures JoinOne(p, cs) == []
  {
    if cs != [] {
      CategoryIdsCons(cs);
      JoinOneEmpty(p, cs[1..]);
    }
  }

  /** A product table with its last row removed still refers only to
      existing categories. */
  lemma ReferencesPrefix(ps: seq<ProductEntity>, cs: seq<CategoriesEntity>, n: nat)
    requires References(ps, cs) && n <= |ps|
    ensures References(ps[..n], cs)
  {
  }

  /** With unique category keys, a last product whose category exists adds
      exactly one row to the join. */
  lemma JoinStep(ps: seq<ProductEntity>, cs: seq<CategoriesEntity>)
    requires KeysUnique(CategoryIds(cs))
    requires ps != [] && ps[|ps| - 1].categoryId in CategoryIds(cs)
    ensures Join(ps, cs) == Join(ps[..|ps| - 1], cs) +
                            [WithCategoryName(ps[|ps| - 1], Lookup(cs, ps[|ps| - 1].categoryId).value.name)]
  {
    JoinOneUnique(ps[|ps| - 1], cs);
    JoinLast(ps, cs);
  }

  /** When category keys are unique and every product refers to an existing
      category, the join has one row per product. */
  lemma {:induction false} JoinLength(ps: seq<ProductEntity>, cs: seq<CategoriesEntity>)
    requires KeysUnique(CategoryIds(cs))
    requires References(ps, cs)
    ensures |Join(ps, cs)| == |ps|
  {
    if ps != [] {
      var n := |ps| - 1;
      assert ps[n].categoryId in CategoryIds(cs);
      JoinStep(ps, cs);
      ReferencesPrefix(ps, cs, n);
      JoinLength(ps[..n], cs);
    }
  }

  /** Under the same conditions, the last product's row ends the join. */
  lemma JoinLastRow(ps: seq<ProductEntity>, cs: seq<CategoriesEntity>)
    requires KeysUnique(CategoryIds(cs))
    requires References(ps, cs)
    requires ps != []
    ensures |Join(ps, cs)| == |ps|
    ensures Join(ps, cs)[|ps| - 1] ==
            WithCategoryName(ps[|ps| - 1], Lookup(cs, ps[|ps| - 1].categoryId).value.name)
  {
    var n := |ps| - 1;
    assert ps[n].categoryId in CategoryIds(cs);
    JoinStep(ps, cs);
    ReferencesPrefix(ps, cs, n);
    JoinLength(ps[..n], cs);
  }

  /** Under the same conditions, the rows of the join before the last
      product's row are the join of the shorter table. */
  lemma JoinEarlierRow(ps: seq<ProductEntity>, cs: seq<CategoriesEntity>, i: nat)
    requires KeysUnique(CategoryIds(cs))
    requires References(ps, cs)
    requires i < |ps| - 1
    ensures |Join(ps, cs)| == |ps| && |Join(ps[..|ps| - 1], cs)| == |ps| - 1
    ensures Join(ps, cs)[i] == Join(ps[..|ps| - 1], cs)[i]
  {
    var n := |ps| - 1;
    assert ps[n].categoryId in CategoryIds(cs);
    JoinStep(ps, cs);
    ReferencesPrefix(ps, cs, n);
    JoinLength(ps[..n], cs);
  }

  /** Under the same conditions, the row of the join at offset `i` is product
      `i` with the name of that product's category. */
  lemma {:induction false} JoinRowAt(ps: seq<ProductEntity>, cs: seq<CategoriesEntity>, i: nat)
    requires KeysUnique(CategoryIds(cs))
    requires References(ps, cs)
    requires i < |ps|
    ensures i < |Join(ps, cs)|
    ensures Join(ps, cs)[i] == WithCategoryName(ps[i], Lookup(cs, ps[i].categoryId).value.name)
  {
    var n := |ps| - 1;
    JoinLength(ps, cs);
    if i == n {
      JoinLastRow(ps, cs);
    } else {
      ReferencesPrefix(ps, cs, n);
      JoinRowAt(ps[..n], cs, i);
      JoinEarlierRow(ps, cs, i);
      assert ps[..n][i] == ps[i];
    }
  }

  /** When category keys are unique and every product refers to an existing
      category, the join has one row per product, in product order, each
      carrying the name of the product's category. */
  lemma JoinTotal(ps: seq<ProductEntity>, cs: seq<CategoriesEntity>)
    requires KeysUnique(CategoryIds(cs))
    requires References(ps, cs)
    ensures |Join(ps, cs)| == |ps|
    ensures forall i :: 0 <= i < |ps| ==>
              Join(ps, cs)[i] == WithCategoryName(ps[i], Lookup(cs, ps[i].categoryId).value.name)
  {
    JoinLength(ps, cs);
    forall i | 0 <= i < |ps|
      ensures Join(ps, cs)[i] == WithCategoryName(ps[i], Lookup(cs, ps[i].categoryId).value.name)
    {
      JoinRowAt(ps, cs, i);
    }
  }

  /** Under the same conditions, the join is the list of expected rows when
      each expected row is its product with its category's name. */
  lemma JoinIs(ps: seq<ProductEntity>, cs: seq<CategoriesEntity>, expected: seq<ProductWithName>)
    requires KeysUnique(CategoryIds(cs))
    requires References(ps, cs)
    requires |expected| == |ps|
    requires forall i :: 0 <= i < |ps| ==>
               expected[i] == WithCategoryName(ps[i], Lookup(cs, ps[i].categoryId).value.name)
    ensures Join(ps, cs) == expected
  {
    JoinTotal(ps, cs);
  }

  // ---------------------------------------------------------------------
  // The store

  /** One process's database: the category and product tables. */
  class Database {
    var categories: seq<CategoriesEntity>
    var products: seq<ProductEntity>

    /** Both tables satisfy their primary-key constraint. */
    ghost predicate Valid()
      reads this
    {
      KeysUnique(CategoryIds(categories)) && KeysUnique(ProductIds(products))
    }

    /** A store with both tables empty. */
    constructor ()
      ensures Valid()
      ensures categories == [] && products == []
    {
      categories := [];
      products := [];
    }

    /** The number of category rows. */
    method CountCategories() returns (n: nat)
      ensures n == |categories|
    {
      n := |categories|;
    }

    /** The number of product rows. */
    method CountProducts() returns (n: nat)
      ensures n == |products|
    {
      n := |products|;
    }

    /** Inserts one category row. A row with id 0 is stored under a freshly
        generated key; a row with an explicit key is stored under it unless
        that key is taken, in which case nothing is stored and None is
        returned. Returns the key the row was stored under. */
    method InsertCategory(c: CategoriesEntity) returns (key: Option<int>)
      requires Valid()
      modifies this
      ensures Valid()
      ensures key == AssignKey(CategoryIds(old(categories)), c.id)
      ensures categories == if key.Some? then old(categories) + [c.(id := key.value)] else old(categories)
      ensures products == old(products)
    {
      key := AssignKey(CategoryIds(categories), c.id);
      if key.Some? {
        CategoryIdsAppend(categories, c.(id := key.value));
        AppendFreshKeepsUnique(CategoryIds(categories), key.value);
        categories := categories + [c.(id := key.value)];
      }
    }

    /** Inserts one product row, with the same key rules as InsertCategory. */
    method InsertProduct(p: ProductEntity) returns (key: Option<int>)
      requires Valid()
      modifies this
      ensures Valid()
      ensures key == AssignKey(ProductIds(old(products)), p.id)
      ensures products == if key.Some? then old(products) + [p.(id := key.value)] else old(products)
      ensures categories == old(categories)
    {
      key := AssignKey(ProductIds(products), p.id);
      if key.Some? {
        ProductIdsAppend(products, p.(id := key.value));
        AppendFreshKeepsUnique(ProductIds(products), key.value);
        products := products + [p.(id := key.value)];
      }
    }

    /** The joined projection of every product with its category's name. */
    method GetAllProductsWithCategoryName() returns (rows: seq<ProductWithName>)
      ensures rows == Join(products, categories)
    {
      rows := Join(products, categories);
    }
  }
}
