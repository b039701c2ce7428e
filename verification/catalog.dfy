/**
 * The catalogue entity shared by the cart, the admin dashboard and the
 * product API. Prices are integer cents, so every sum is exact.
 */
module Catalog {
  import opened Wrappers

  datatype Product = Product(
    id: string,
    name: string,
    description: string,
    price: int,
    image: Option<string>,
    category: string,
    inStock: bool,
    stockCount: int,
    featured: bool)
}
