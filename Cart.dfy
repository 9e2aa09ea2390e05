/** The cart page: line totals, the grand total, the total of the lines the
    shopper ticked, ticking and unticking a line, handing the ticked lines on
    to checkout, and the rules that enable the quantity step buttons. */
module Cart {
  import opened Common

  /** One cart line (the checkout page receives the same records). */
  datatype LineItem = LineItem(productId: string, price: real, quantity: int, stock: int)

  /** What "Checkout" produces: nothing when no line is ticked, otherwise the
      checkout data, whose item list is missing when the cart never loaded. */
  datatype CheckoutRequest = Refused | CheckoutData(items: Option<seq<LineItem>>)

  /** `calculateTotal(item)`: unit price times quantity. */
  function LineTotal(item: LineItem): (r: real)
    ensures item.price >= 0.0 && item.quantity >= 0 ==> r >= 0.0
  {
    item.price * item.quantity as real
  }

  /** `calculateEndTotal`: the sum of every line total; 0 while the cart is absent. */
  function EndTotal(cart: Option<seq<LineItem>>): real
  {
    match cart
    case None => 0.0
    case Some(items) => Sum(items, LineTotal)
  }

  predicate IsSelected(item: LineItem, selected: seq<string>)
  {
    item.productId in selected
  }

  /** The lines whose product id is in the selection, in cart order. */
  function SelectedItems(items: seq<LineItem>, selected: seq<string>): (r: seq<LineItem>)
    ensures forall item :: item in r <==> item in items && item.productId in selected
    ensures forall item :: multiset(r)[item] == if item.productId in selected then multiset(items)[item] else 0
    ensures IsSubsequence(r, items)
  {
    FilterIsSubsequence(items, item => IsSelected(item, selected));
    Filter(items, item => IsSelected(item, selected))
  }

  /** `calculateSelectedTotal`: the sum of the ticked lines' totals. */
  function SelectedTotal(cart: Option<seq<LineItem>>, selected: seq<string>): real
  {
    match cart
    case None => 0.0
    case Some(items) => Sum(SelectedItems(items, selected), LineTotal)
  }

  /** The selection after ticking or unticking `id`: a ticked id is removed
      (every copy of it), an unticked one is appended. */
  function Toggled(selection: seq<string>, id: string): (r: seq<string>)
    ensures id in r <==> id !in selection
    ensures forall other :: other != id ==> (other in r <==> other in selection)
  {
    if id in selection then Filter(selection, x => x != id) else selection + [id]
  }

  /** The quantity is a sensible one for the line's stock. */
  predicate InStockRange(item: LineItem)
  {
    1 <= item.quantity <= item.stock
  }

  /** The "−" button is disabled at `quantity <= 1`. */
  predicate DecrementEnabled(item: LineItem)
  {
    !(item.quantity <= 1)
  }

  /** The "+" button is disabled at `quantity >= stock`. */
  predicate IncrementEnabled(item: LineItem)
  {
    !(item.quantity >= item.stock)
  }

  /** The line after a press on "−" that the server accepted. */
  function StepDown(item: LineItem): (r: LineItem)
    ensures r.productId == item.productId && r.price == item.price && r.stock == item.stock
    ensures r.quantity <= item.quantity
    ensures InStockRange(item) ==> InStockRange(r)
  {
    if DecrementEnabled(item) then item.(quantity := item.quantity - 1) else item
  }

  /** The line after a press on "+" that the server accepted. */
  function StepUp(item: LineItem): (r: LineItem)
    ensures r.productId == item.productId && r.price == item.price && r.stock == item.stock
    ensures r.quantity >= item.quantity
    ensures InStockRange(item) ==> InStockRange(r)
  {
    if IncrementEnabled(item) then item.(quantity := item.quantity + 1) else item
  }

  lemma SelectedTotalOfEmptySelection(cart: Option<seq<LineItem>>)
    ensures SelectedTotal(cart, []) == 0.0
  {
    if cart.Some? {
      FilterDropsAll(cart.value, item => IsSelected(item, []));
    }
  }

  lemma SelectedTotalWhenAllSelected(cart: Option<seq<LineItem>>, selected: seq<string>)
    requires cart.Some? ==> forall item :: item in cart.value ==> item.productId in selected
    ensures SelectedTotal(cart, selected) == EndTotal(cart)
  {
    if cart.Some? {
      FilterKeepsAll(cart.value, item => IsSelected(item, selected));
    }
  }

  lemma SelectedTotalAtMostEndTotal(cart: Option<seq<LineItem>>, selected: seq<string>)
    requires cart.Some? ==> forall item :: item in cart.value ==> item.price >= 0.0 && item.quantity >= 0
    ensures 0.0 <= SelectedTotal(cart, selected) <= EndTotal(cart)
  {
    if cart.Some? {
      var items := cart.value;
      SumFilterAtMost(items, item => IsSelected(item, selected), LineTotal);
      SumNonNegative(SelectedItems(items, selected), LineTotal);
    }
  }

  /** Ticking an unticked line and unticking it again gives back the very same
      selection list, order included. */
  lemma ToggleTwiceRestores(selection: seq<string>, id: string)
    requires id !in selection
    ensures Toggled(Toggled(selection, id), id) == selection
  {
    var keep := x => x != id;
    FilterConcat(selection, [id], keep);
    FilterKeepsAll(selection, keep);
    FilterDropsAll([id], keep);
  }

  class CartPage {
    var cartData: Option<seq<LineItem>>
    var selectedItems: seq<string>

    constructor ()
      ensures cartData == None && selectedItems == []
    {
      cartData := None;
      selectedItems := [];
    }

    /** `fetchCartData`: a successful fetch replaces the cart, a failed one keeps it. */
    method FetchCartData(response: Option<seq<LineItem>>)
      modifies this`cartData
      ensures cartData == if response.Some? then response else old(cartData)
    {
      if response.Some? {
        cartData := response;
      }
    }

    /** `toggleItemSelection`. */
    method ToggleItemSelection(productId: string)
      modifies this`selectedItems
      ensures selectedItems == Toggled(old(selectedItems), productId)
    {
      if productId in selectedItems {
        selectedItems := Filter(selectedItems, x => x != productId);
      } else {
        selectedItems := selectedItems + [productId];
      }
    }

    /** `handleCheckout`: refused with an empty selection; otherwise the ticked
        lines, in cart order. */
    method HandleCheckout() returns (r: CheckoutRequest)
      ensures r.Refused? <==> selectedItems == []
      ensures r.CheckoutData? ==> (r.items.Some? <==> cartData.Some?)
      ensures r.CheckoutData? && cartData.Some? ==>
        forall item :: item in r.items.value <==> item in cartData.value && item.productId in selectedItems
      ensures r.CheckoutData? && cartData.Some? ==> IsSubsequence(r.items.value, cartData.value)
      ensures r.CheckoutData? && cartData.Some? ==> r.items.value == SelectedItems(cartData.value, selectedItems)
    {
      if |selectedItems| == 0 {
        return Refused;
      }
      match cartData
      case None => r := CheckoutData(None);
      case Some(items) => r := CheckoutData(Some(SelectedItems(items, selectedItems)));
    }
  }
}
