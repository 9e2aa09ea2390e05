/** The product record that the product page and the add-to-cart sidebar both
    fetch from `/product/{id}`: a product is priced and stocked either directly
    or per attribute (a size, a colour, ...). */
module Catalog {
  import opened Common

  datatype Attribute = Attribute(value: string, quantity: int, price: real)

  datatype Product = Product(
    id: string,
    images: seq<string>,
    price: Option<real>,               // optional in the record
    stock: Option<int>,                // optional in the record
    attributes: Option<seq<Attribute>>,
    maxDiscount: real,                 // percentage points
    averageRating: real)

  /** `if (product.price)`: the price is present and not zero. */
  predicate HasPrice(p: Product)
  {
    p.price.Some? && p.price.value != 0.0
  }

  /** The product has a non-empty attribute list, so `attributes[0]` exists. */
  predicate HasFirstAttribute(p: Product)
  {
    p.attributes.Some? && |p.attributes.value| > 0
  }
}
