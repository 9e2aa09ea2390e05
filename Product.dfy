/** The product page: the discounted price it advertises, the crossed-out
    price shown beside it, and how many of the five rating stars are lit. */
module Product {
  import opened Common
  import opened Catalog

  /** A product the discount price can be computed for: a non-zero price, or
      else a first attribute to take the price from. */
  predicate Priceable(p: Product)
  {
    HasPrice(p) || HasFirstAttribute(p)
  }

  /** The price the page discounts: the product's own price when non-zero,
      otherwise the first attribute's price. */
  function DiscountBase(p: Product): (r: real)
    requires Priceable(p)
    ensures HasPrice(p) ==> r == p.price.value
    ensures !HasPrice(p) ==> r == p.attributes.value[0].price
  {
    if HasPrice(p) then p.price.value else p.attributes.value[0].price
  }

  /** `discountPrice`: the base reduced by the product's maximum discount. */
  function DiscountPrice(p: Product): real
    requires Priceable(p)
  {
    DiscountBase(p) * (1.0 - p.maxDiscount / 100.0)
  }

  /** The crossed-out price: the first attribute's price whenever the product
      has attributes, otherwise its own price (which may be missing). */
  function StruckPrice(p: Product): (r: Option<real>)
    requires p.attributes.Some? ==> |p.attributes.value| > 0
    ensures p.attributes.Some? ==> r == Some(p.attributes.value[0].price)
    ensures p.attributes.None? ==> r == p.price
  {
    if p.attributes.Some? then Some(p.attributes.value[0].price) else p.price
  }

  /** `{discountPrice && ...}`: the discounted price is shown only when non-zero. */
  predicate ShowsDiscountPrice(p: Product)
    requires Priceable(p)
  {
    DiscountPrice(p) != 0.0
  }

  /** Star `star` (1 to 5) is lit when it does not exceed the average rating. */
  predicate StarLit(star: int, rating: real)
  {
    star as real <= rating
  }

  /** The number of lit stars among 1, ..., k. */
  function LitAmong(k: nat, rating: real): (n: nat)
    ensures n <= k
  {
    if k == 0 then 0 else LitAmong(k - 1, rating) + (if StarLit(k, rating) then 1 else 0)
  }

  /** The number of lit stars among the five the page draws. */
  function LitStars(rating: real): nat
  {
    LitAmong(5, rating)
  }

  lemma NoDiscountKeepsBase(p: Product)
    requires Priceable(p) && p.maxDiscount == 0.0
    ensures DiscountPrice(p) == DiscountBase(p)
  {
  }

  lemma FullDiscountIsZero(p: Product)
    requires Priceable(p) && p.maxDiscount == 100.0
    ensures DiscountPrice(p) == 0.0
    ensures !ShowsDiscountPrice(p)
  {
  }

  /** A discount between 0 and 100 percent of a non-negative base lands between 0 and the base. */
  lemma DiscountPriceBounds(p: Product)
    requires Priceable(p) && 0.0 <= p.maxDiscount <= 100.0 && DiscountBase(p) >= 0.0
    ensures 0.0 <= DiscountPrice(p) <= DiscountBase(p)
  {
    var b := DiscountBase(p);
    var f := 1.0 - p.maxDiscount / 100.0;
    assert 0.0 <= f <= 1.0;
    assert b * f <= b * 1.0;
  }

  /** The discounted price is shown exactly when the base is non-zero and the
      discount is not 100 percent. */
  lemma ShownExactly(p: Product)
    requires Priceable(p)
    ensures ShowsDiscountPrice(p) <==> DiscountBase(p) != 0.0 && p.maxDiscount != 100.0
  {
    var b := DiscountBase(p);
    var f := 1.0 - p.maxDiscount / 100.0;
    assert f == 0.0 <==> p.maxDiscount == 100.0;
    if b != 0.0 && f != 0.0 {
      assert b * f != 0.0;
    }
  }

  /** The two prices prefer opposite sources: a product with both a non-zero
      price and attributes discounts its own price but crosses out the first
      attribute's price. */
  lemma OppositePreferences(p: Product)
    requires HasPrice(p) && HasFirstAttribute(p)
    ensures DiscountBase(p) == p.price.value
    ensures StruckPrice(p) == Some(p.attributes.value[0].price)
  {
  }

  /** Among stars 1..k, the lit ones number the rating rounded down, kept between 0 and k. */
  lemma {:induction false} LitAmongIsFloor(k: nat, rating: real)
    ensures LitAmong(k, rating) == if rating < 1.0 then 0 else if rating >= k as real then k else rating.Floor
  {
    if k > 0 {
      LitAmongIsFloor(k - 1, rating);
    }
  }

  /** The lit stars are exactly the first LitStars(rating) ones, and their number
      is the rating rounded down and kept between 0 and 5. */
  lemma LitStarsCount(rating: real)
    ensures forall star :: 1 <= star <= 5 ==> (StarLit(star, rating) <==> star <= LitStars(rating))
    ensures LitStars(rating) == if rating < 1.0 then 0 else if rating >= 5.0 then 5 else rating.Floor
  {
    LitAmongIsFloor(5, rating);
  }
}
