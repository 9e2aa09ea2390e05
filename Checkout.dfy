/** The checkout page: the payable total of one line under the discount the
    shopper applied to it, the order total, and choosing a discount for a line.

    Two behaviours are kept exactly as the page computes them: a buy-X-get-Y
    line total leaves out the line's shipping fee, and the order total adds
    the shipping fee once more per line on top of line totals that already
    contain it. */
module Checkout {
  import opened Common
  import opened Cart

  /** The flat per-line shipping fee. */
  const ShippingFee: real := 20.0

  /** A discount's value: an amount (percentage points or currency) or a
      buy-X-get-Y pair. */
  datatype DiscountValue = Amount(amount: real) | BuyGet(buyQuantity: int, getFreeQuantity: int)

  /** A discount as the server sends it; `kind` is the record's `type` string. */
  datatype Discount = Discount(code: string, kind: string, value: DiscountValue)

  predicate IsPercentKind(kind: string)
  {
    kind == "flash-sale" || kind == "percentage"
  }

  /** The value has the shape its kind is computed with, and a buy-X-get-Y
      discount never divides by zero. Anything else yields no number at all. */
  predicate Computable(d: Discount)
  {
    && (IsPercentKind(d.kind) || d.kind == "fixed" ==> d.value.Amount?)
    && (d.kind == "buy-x-get-y" ==> d.value.BuyGet? && d.value.buyQuantity > 0)
  }

  type ShapedDiscount = d: Discount | Computable(d) witness Discount("", "percentage", Amount(0.0))

  function Max(a: real, b: real): real { if a >= b then a else b }

  function Min(a: int, b: int): int { if a <= b then a else b }

  /** Price times quantity plus shipping, before any discount. */
  function BaseAmount(item: LineItem): real
  {
    item.price * item.quantity as real + ShippingFee
  }

  /** Buy-X-get-Y: one batch of free items per complete group of `buy`, capped
      by the stock left over after the line's own quantity. */
  function FreeItems(item: LineItem, buy: int, free: int): int
    requires buy > 0
  {
    Min(item.quantity / buy * free, item.stock - item.quantity)
  }

  /** The line total before the clamp at zero, under one discount rule. */
  function Discounted(item: LineItem, d: ShapedDiscount): real
  {
    var base := BaseAmount(item);
    if IsPercentKind(d.kind) then base - base * (d.value.amount / 100.0)
    else if d.kind == "fixed" then base - d.value.amount
    else if d.kind == "buy-x-get-y" then
      (item.quantity + FreeItems(item, d.value.buyQuantity, d.value.getFreeQuantity)) as real * item.price
    else base
  }

  /** The line's payable total under an optional discount: never negative. */
  function LineTotal(item: LineItem, discount: Option<ShapedDiscount>): (r: real)
    ensures r >= 0.0
  {
    match discount
    case None => Max(BaseAmount(item), 0.0)
    case Some(d) => Max(Discounted(item, d), 0.0)
  }

  function AppliedTo(applied: map<string, ShapedDiscount>, productId: string): Option<ShapedDiscount>
  {
    if productId in applied then Some(applied[productId]) else None
  }

  /** `calculateItemTotal(item)`: the line total under the discount applied to its product. */
  function ItemTotal(item: LineItem, applied: map<string, ShapedDiscount>): real
  {
    LineTotal(item, AppliedTo(applied, item.productId))
  }

  /** `calculateTotal`: the line totals summed in order, plus the shipping fee per line. */
  function OrderTotal(items: seq<LineItem>, applied: map<string, ShapedDiscount>): real
  {
    Sum(items, item => ItemTotal(item, applied)) + ShippingFee * |items| as real
  }

  /** `calculateItemTotal` as the page computes it, by updating a running total. */
  method CalculateItemTotal(item: LineItem, applied: map<string, ShapedDiscount>) returns (r: real)
    ensures r == ItemTotal(item, applied)
  {
    var total := item.price * item.quantity as real + ShippingFee;
    if item.productId in applied {
      var discount := applied[item.productId];
      if discount.kind == "flash-sale" || discount.kind == "percentage" {
        total := total - total * (discount.value.amount / 100.0);
      } else if discount.kind == "fixed" {
        total := total - discount.value.amount;
      } else if discount.kind == "buy-x-get-y" {
        var buy, free := discount.value.buyQuantity, discount.value.getFreeQuantity;
        var sets := item.quantity / buy;
        var freeItems := if sets * free <= item.stock - item.quantity then sets * free
                         else item.stock - item.quantity;
        total := (item.quantity + freeItems) as real * item.price;
      }
    }
    r := if total >= 0.0 then total else 0.0;
  }

  // ---------------------------------------------------------------- line totals

  /** Without an applied discount a line costs price times quantity plus shipping. */
  lemma UndiscountedLineTotal(item: LineItem, applied: map<string, ShapedDiscount>)
    requires item.productId !in applied
    requires item.price >= 0.0 && item.quantity >= 0
    ensures ItemTotal(item, applied) == item.price * item.quantity as real + ShippingFee
  {
  }

  /** "percentage" and "flash-sale" are priced identically: base times (1 - value/100). */
  lemma PercentageKindsAgree(item: LineItem, code: string, v: real)
    ensures LineTotal(item, Some(Discount(code, "percentage", Amount(v))))
         == LineTotal(item, Some(Discount(code, "flash-sale", Amount(v))))
         == Max(BaseAmount(item) * (1.0 - v / 100.0), 0.0)
  {
  }

  lemma ZeroPercentIsNoDiscount(item: LineItem, d: ShapedDiscount)
    requires IsPercentKind(d.kind) && d.value.amount == 0.0
    ensures LineTotal(item, Some(d)) == LineTotal(item, None)
  {
  }

  /** A discount of 100 percent or more makes a line with a non-negative price free. */
  lemma FullPercentIsFree(item: LineItem, d: ShapedDiscount)
    requires IsPercentKind(d.kind) && d.value.amount >= 100.0
    requires item.price >= 0.0 && item.quantity >= 0
    ensures LineTotal(item, Some(d)) == 0.0
  {
    var base := BaseAmount(item);
    var v := d.value.amount;
    assert base >= 0.0;
    assert 1.0 - v / 100.0 <= 0.0;
    assert base * (1.0 - v / 100.0) <= 0.0;
    assert Discounted(item, d) == base - base * (v / 100.0) == base * (1.0 - v / 100.0);
  }

  /** A fixed discount subtracts its amount from the shipping-inclusive base,
      and a discount larger than the base leaves the line at 0. */
  lemma FixedDiscountLineTotal(item: LineItem, d: ShapedDiscount)
    requires d.kind == "fixed"
    ensures LineTotal(item, Some(d)) == Max(BaseAmount(item) - d.value.amount, 0.0)
    ensures d.value.amount >= BaseAmount(item) ==> LineTotal(item, Some(d)) == 0.0
  {
  }

  /** Buy-X-get-Y: the line is priced as the bought plus the free items at unit
      price, with no shipping fee; the free items never exceed the stock left
      over, so the granted quantity stays within stock. */
  lemma BuyGetLineTotal(item: LineItem, d: ShapedDiscount)
    requires d.kind == "buy-x-get-y"
    requires 0 <= item.quantity <= item.stock && d.value.getFreeQuantity >= 0
    requires item.price >= 0.0
    ensures var free := FreeItems(item, d.value.buyQuantity, d.value.getFreeQuantity);
      && 0 <= free <= item.stock - item.quantity
      && free <= item.quantity / d.value.buyQuantity * d.value.getFreeQuantity
      && LineTotal(item, Some(d)) == (item.quantity + free) as real * item.price
  {
    var buy, get := d.value.buyQuantity, d.value.getFreeQuantity;
    var sets := item.quantity / buy;
    assert sets >= 0;
    assert sets * get >= 0;
    var free := FreeItems(item, buy, get);
    assert (item.quantity + free) as real >= 0.0;
    assert (item.quantity + free) as real * item.price >= 0.0;
  }

  /** A discount whose kind is none of the four known ones changes nothing. */
  lemma UnknownKindIsNoDiscount(item: LineItem, d: ShapedDiscount)
    requires !IsPercentKind(d.kind) && d.kind != "fixed" && d.kind != "buy-x-get-y"
    ensures LineTotal(item, Some(d)) == LineTotal(item, None)
  {
  }

  // ---------------------------------------------------------------- order total

  lemma OrderTotalOfNoItems(applied: map<string, ShapedDiscount>)
    ensures OrderTotal([], applied) == 0.0
  {
  }

  /** One more line adds its line total and one more shipping fee. */
  lemma OrderTotalAppend(items: seq<LineItem>, item: LineItem, applied: map<string, ShapedDiscount>)
    ensures OrderTotal(items + [item], applied)
         == OrderTotal(items, applied) + ItemTotal(item, applied) + ShippingFee
  {
    SumAppend(items, item, x => ItemTotal(x, applied));
  }

  /** The order total charges at least one shipping fee per line. */
  lemma OrderTotalAtLeastShipping(items: seq<LineItem>, applied: map<string, ShapedDiscount>)
    ensures OrderTotal(items, applied) >= ShippingFee * |items| as real
  {
    SumNonNegative(items, x => ItemTotal(x, applied));
  }

  /** Reordering the lines does not change the order total. */
  lemma OrderTotalPermutation(a: seq<LineItem>, b: seq<LineItem>, applied: map<string, ShapedDiscount>)
    requires multiset(a) == multiset(b)
    ensures OrderTotal(a, applied) == OrderTotal(b, applied)
  {
    SumPermutation(a, b, x => ItemTotal(x, applied));
    assert |a| == |multiset(a)| == |multiset(b)| == |b|;
  }

  /** With no discount applied, the order total is the cart's end total plus
      twice the shipping fee per line: once inside each line total and once
      more on top. */
  lemma UndiscountedOrderTotal(items: seq<LineItem>)
    requires forall item :: item in items ==> item.price >= 0.0 && item.quantity >= 0
    ensures OrderTotal(items, map[]) == EndTotal(Some(items)) + 2.0 * ShippingFee * |items| as real
  {
    SumShift(items, x => ItemTotal(x, map[]), Cart.LineTotal, ShippingFee);
  }

  /** Choosing a discount for one product leaves every other product's line total as it was. */
  lemma SelectingLeavesOtherLines(item: LineItem, applied: map<string, ShapedDiscount>,
                                  productId: string, d: ShapedDiscount)
    requires item.productId != productId
    ensures ItemTotal(item, applied[productId := d]) == ItemTotal(item, applied)
  {
  }

  class CheckoutPage {
    var items: seq<LineItem>
    var discounts: seq<Discount>
    var appliedDiscounts: map<string, ShapedDiscount>
    var currentProductId: string
    var discountDialogOpen: bool

    /** The page opens on the checkout data the cart page stored (or none). */
    constructor (stored: Option<seq<LineItem>>)
      ensures items == (if stored.Some? then stored.value else [])
      ensures discounts == [] && appliedDiscounts == map[]
      ensures currentProductId == "" && !discountDialogOpen
    {
      items := if stored.Some? then stored.value else [];
      discounts := [];
      appliedDiscounts := map[];
      currentProductId := "";
      discountDialogOpen := false;
    }

    /** `handleApplyDiscount`: remember the product, and when the candidate
        discounts arrive, list them and open the dialog. */
    method HandleApplyDiscount(productId: string, response: Option<seq<Discount>>)
      modifies this`currentProductId, this`discounts, this`discountDialogOpen
      ensures currentProductId == productId
      ensures response.Some? ==> discounts == response.value && discountDialogOpen
      ensures response.None? ==> discounts == old(discounts) && discountDialogOpen == old(discountDialogOpen)
    {
      currentProductId := productId;
      if response.Some? {
        discounts := response.value;
        discountDialogOpen := true;
      }
    }

    /** `handleSelectDiscount`: apply the discount to the current product only
        and close the dialog. */
    method HandleSelectDiscount(d: ShapedDiscount)
      modifies this`appliedDiscounts, this`discountDialogOpen
      ensures appliedDiscounts == old(appliedDiscounts)[currentProductId := d]
      ensures currentProductId in appliedDiscounts && appliedDiscounts[currentProductId] == d
      ensures forall id :: id != currentProductId ==>
        (id in appliedDiscounts <==> id in old(appliedDiscounts)) &&
        (id in appliedDiscounts ==> appliedDiscounts[id] == old(appliedDiscounts)[id])
      ensures !discountDialogOpen
    {
      appliedDiscounts := appliedDiscounts[currentProductId := d];
      discountDialogOpen := false;
    }
  }
}
