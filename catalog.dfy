/** The product record as the pages and forms read it. Its declaring module
    (the products slice) is not part of this model; only the fields the
    modelled code touches are kept. Prices are reals: JavaScript's floating
    point is not modelled. */
module Catalog {
  import opened Wrappers

  datatype Rating = Rating(rate: real, count: int)

  datatype Product = Product(
    id: int,
    title: string,
    price: real,
    description: string,
    category: string,
    image: string,
    rating: Option<Rating>,
    stock: Option<int>)

  /** The categories of a product list, one per product, in list order. */
  function CategoryList(products: seq<Product>): (r: seq<string>)
    ensures |r| == |products|
    ensures forall i :: 0 <= i < |products| ==> r[i] == products[i].category
  {
    seq(|products|, i requires 0 <= i < |products| => products[i].category)
  }
}
