/** The records of the app's local store: the category row declared in
    CategoriesEntity.kt, the product row, and the joined projection the home
    screen reads. The product row and the projection are declared from the
    way HomeViewModel.kt builds and reads them. */
module Entities {

  /** A price in integer cents (the app stores a floating-point price; the
      model never computes with it). */
  type Cents = nat

  /** A handle on a bundled drawable resource, kept symbolic. */
  datatype DrawableRes = Drawable(resName: string)

  /** A category row. `id` is the surrogate primary key Room generates on
      insert; the default 0 is the sentinel that asks the store for a fresh
      key. `name` is required and has no default. */
  datatype CategoriesEntity = CategoriesEntity(id: int := 0, name: string)

  /** A product row; `categoryId` refers, by convention only, to a category id. */
  datatype ProductEntity = ProductEntity(
    id: int := 0,
    name: string,
    categoryId: int,
    price: Cents,
    imageRes: DrawableRes)

  /** A product row together with the name of the category it joins to. */
  datatype ProductWithName = ProductWithName(
    id: int,
    name: string,
    categoryId: int,
    price: Cents,
    imageRes: DrawableRes,
    categoryName: string)

  /** The projection row built from a product and its category's name. */
  function WithCategoryName(p: ProductEntity, categoryName: string): ProductWithName
  {
    ProductWithName(p.id, p.name, p.categoryId, p.price, p.imageRes, categoryName)
  }

  /** Leaving out `id` gives the sentinel 0, and the name is kept as given. */
  lemma OmittedIdIsSentinel(name: string)
    ensures CategoriesEntity(name := name).id == 0
    ensures CategoriesEntity(name := name).name == name
  {
  }
}
