/** The add-to-cart sidebar: looking up the price and stock of the product
    (directly, or through the selected attribute), the quantity picker clamped
    to the stock, the image carousel, the zoom of the enlarged image, and the
    payload of "Add to Cart". */
module Sidebar {
  import opened Common
  import opened Catalog

  /** What "Add to Cart" sends. */
  datatype CartPayload = CartPayload(productId: string, quantity: int, attributesValue: Option<string>)

  /** `attributes.find(a => a.attributes_value === value)`: the first attribute
      carrying that value. */
  function FindAttribute(attrs: seq<Attribute>, value: string): (r: Option<Attribute>)
    ensures r.None? <==> forall a :: a in attrs ==> a.value != value
    ensures r.Some? ==> exists i :: 0 <= i < |attrs| && attrs[i] == r.value && r.value.value == value
                                  && forall j :: 0 <= j < i ==> attrs[j].value != value
  {
    if attrs == [] then None
    else if attrs[0].value == value then Some(attrs[0])
    else
      var r := FindAttribute(attrs[1..], value);
      assert forall a :: a in attrs ==> a == attrs[0] || a in attrs[1..];
      if r.Some? then
        var i :| 0 <= i < |attrs[1..]| && attrs[1..][i] == r.value && r.value.value == value
                 && forall j :: 0 <= j < i ==> attrs[1..][j].value != value;
        assert attrs[i + 1] == r.value;
        assert forall j :: 0 <= j < i + 1 ==> attrs[j].value != value by {
          forall j | 0 <= j < i + 1 ensures attrs[j].value != value {
            if j > 0 { assert attrs[j] == attrs[1..][j - 1]; }
          }
        }
        r
      else r
  }

  /** `getPrice`: the product's own price when it has a non-zero one, else the
      price of the selected attribute, else nothing. */
  function GetPrice(product: Option<Product>, selected: Option<string>): (r: Option<real>)
    ensures product.None? ==> r.None?
    ensures product.Some? && HasPrice(product.value) ==> r == product.value.price
    ensures product.Some? && !HasPrice(product.value) && product.value.attributes.Some? && IsTruthy(selected) ==>
      r == match FindAttribute(product.value.attributes.value, selected.value)
           case Some(a) => Some(a.price)
           case None => None
    ensures product.Some? && !HasPrice(product.value) && !(product.value.attributes.Some? && IsTruthy(selected)) ==>
      r.None?
  {
    match product
    case None => None
    case Some(p) =>
      if HasPrice(p) then p.price
      else if p.attributes.Some? && IsTruthy(selected) then
        match FindAttribute(p.attributes.value, selected.value)
        case Some(a) => Some(a.price)
        case None => None
      else None
  }

  /** `getStock`: the product's own stock whenever it is given (0 included),
      else the quantity of the selected attribute, else nothing. */
  function GetStock(product: Option<Product>, selected: Option<string>): (r: Option<int>)
    ensures product.None? ==> r.None?
    ensures product.Some? && product.value.stock.Some? ==> r == product.value.stock
    ensures product.Some? && product.value.stock.None? && product.value.attributes.Some? && IsTruthy(selected) ==>
      r == match FindAttribute(product.value.attributes.value, selected.value)
           case Some(a) => Some(a.quantity)
           case None => None
    ensures product.Some? && product.value.stock.None? && !(product.value.attributes.Some? && IsTruthy(selected)) ==>
      r.None?
  {
    match product
    case None => None
    case Some(p) =>
      if p.stock.Some? then p.stock
      else if p.attributes.Some? && IsTruthy(selected) then
        match FindAttribute(p.attributes.value, selected.value)
        case Some(a) => Some(a.quantity)
        case None => None
      else None
  }

  /** The two look-ups test their field differently: a price of 0 counts as no
      price and falls back to the selected attribute, while a stock of 0 is
      returned as it is. */
  lemma ZeroPriceFallsBackZeroStockDoesNot(p: Product, selected: Option<string>, a: Attribute)
    requires p.price == Some(0.0) && p.stock == Some(0)
    requires p.attributes == Some([a]) && IsTruthy(selected) && a.value == selected.value
    ensures GetPrice(Some(p), selected) == Some(a.price)
    ensures GetStock(Some(p), selected) == Some(0)
  {
  }

  /** `Math.min(Math.max(1, value), stock)`. */
  function ClampQuantity(value: int, stock: int): (r: int)
    ensures r <= stock
    ensures stock >= 1 ==> 1 <= r
    ensures 1 <= value <= stock ==> r == value
    ensures stock >= 1 && value < 1 ==> r == 1
    ensures value > stock ==> r == stock
  {
    var atLeastOne := if value >= 1 then value else 1;
    if atLeastOne <= stock then atLeastOne else stock
  }

  /** Clamping an already clamped quantity changes nothing. */
  lemma ClampIdempotent(value: int, stock: int)
    ensures ClampQuantity(ClampQuantity(value, stock), stock) == ClampQuantity(value, stock)
  {
  }

  /** The carousel's next image, wrapping to the first. */
  function NextIndex(i: nat, n: nat): (r: nat)
    requires n > 0
    ensures r < n
    ensures i + 1 < n ==> r == i + 1
    ensures i + 1 == n ==> r == 0
  {
    (i + 1) % n
  }

  /** The carousel's previous image, wrapping to the last. */
  function PrevIndex(i: nat, n: nat): (r: nat)
    requires n > 0
    ensures r < n
    ensures 0 < i <= n ==> r == i - 1
    ensures i == 0 ==> r == n - 1
  {
    (i - 1 + n) % n
  }

  /** Going back after going forward returns to the same image, and the other way round. */
  lemma PrevUndoesNext(i: nat, n: nat)
    requires i < n
    ensures PrevIndex(NextIndex(i, n), n) == i
    ensures NextIndex(PrevIndex(i, n), n) == i
  {
  }

  /** The zoom level is kept in half steps: `halves / 2` is the scale, 1 to 3. */
  const MinZoomHalves: int := 2
  const MaxZoomHalves: int := 6

  /** `Math.min(prevZoom + 0.5, 3)`. */
  function ZoomedIn(halves: int): (r: int)
    ensures r <= MaxZoomHalves
    ensures MinZoomHalves <= halves ==> MinZoomHalves <= r
    ensures halves < MaxZoomHalves ==> r == halves + 1
  {
    if halves + 1 <= MaxZoomHalves then halves + 1 else MaxZoomHalves
  }

  /** `Math.max(prevZoom - 0.5, 1)`. */
  function ZoomedOut(halves: int): (r: int)
    ensures MinZoomHalves <= r
    ensures halves <= MaxZoomHalves ==> r <= MaxZoomHalves
    ensures halves > MinZoomHalves ==> r == halves - 1
  {
    if halves - 1 >= MinZoomHalves then halves - 1 else MinZoomHalves
  }

  /** Zooming in then out from any level up to 2.5 returns to that level. */
  lemma ZoomInThenOut(halves: int)
    requires MinZoomHalves <= halves < MaxZoomHalves
    ensures ZoomedOut(ZoomedIn(halves)) == halves
  {
  }

  class CartSidebar {
    var product: Option<Product>
    var selectedAttribute: Option<string>
    var quantity: int
    var currentImageIndex: nat
    var zoomHalves: int

    ghost predicate Valid()
      reads this
    {
      MinZoomHalves <= zoomHalves <= MaxZoomHalves
    }

    constructor ()
      ensures Valid()
      ensures product == None && selectedAttribute == None
      ensures quantity == 1 && currentImageIndex == 0 && zoomHalves == 2
    {
      product := None;
      selectedAttribute := None;
      quantity := 1;
      currentImageIndex := 0;
      zoomHalves := 2;
    }

    /** A product fetched for the sidebar: it is shown, and when it has
        attributes the first one is selected. Quantity, image and zoom stay. */
    method ProductLoaded(p: Product)
      modifies this`product, this`selectedAttribute
      ensures product == Some(p)
      ensures HasFirstAttribute(p) ==> selectedAttribute == Some(p.attributes.value[0].value)
      ensures !HasFirstAttribute(p) ==> selectedAttribute == old(selectedAttribute)
    {
      product := Some(p);
      if p.attributes.Some? && |p.attributes.value| > 0 {
        selectedAttribute := Some(p.attributes.value[0].value);
      }
    }

    /** A click on one of the attribute buttons. */
    method SelectAttribute(value: string)
      modifies this`selectedAttribute
      ensures selectedAttribute == Some(value)
    {
      selectedAttribute := Some(value);
    }

    /** `handleQuantityChange`: clamp into [1, stock] when the stock is known. */
    method HandleQuantityChange(value: int)
      modifies this`quantity
      ensures GetStock(product, selectedAttribute).None? ==> quantity == old(quantity)
      ensures GetStock(product, selectedAttribute).Some? ==>
        quantity == ClampQuantity(value, GetStock(product, selectedAttribute).value)
    {
      var stock := GetStock(product, selectedAttribute);
      if stock.Some? {
        quantity := ClampQuantity(value, stock.value);
      }
    }

    /** `nextImage`. */
    method NextImage()
      requires product.Some? ==> |product.value.images| > 0
      modifies this`currentImageIndex
      ensures product.None? ==> currentImageIndex == old(currentImageIndex)
      ensures product.Some? ==> currentImageIndex == NextIndex(old(currentImageIndex), |product.value.images|)
    {
      if product.Some? {
        currentImageIndex := (currentImageIndex + 1) % |product.value.images|;
      }
    }

    /** `prevImage`. */
    method PrevImage()
      requires product.Some? ==> |product.value.images| > 0
      modifies this`currentImageIndex
      ensures product.None? ==> currentImageIndex == old(currentImageIndex)
      ensures product.Some? ==> currentImageIndex == PrevIndex(old(currentImageIndex), |product.value.images|)
    {
      if product.Some? {
        var n := |product.value.images|;
        currentImageIndex := (currentImageIndex - 1 + n) % n;
      }
    }

    /** `handleZoomIn`. */
    method HandleZoomIn()
      requires Valid()
      modifies this`zoomHalves
      ensures Valid() && zoomHalves == ZoomedIn(old(zoomHalves))
    {
      zoomHalves := ZoomedIn(zoomHalves);
    }

    /** `handleZoomOut`. */
    method HandleZoomOut()
      requires Valid()
      modifies this`zoomHalves
      ensures Valid() && zoomHalves == ZoomedOut(old(zoomHalves))
    {
      zoomHalves := ZoomedOut(zoomHalves);
    }

    /** `handleAddToCart`: the payload it would send, none without a product. */
    method HandleAddToCart() returns (r: Option<CartPayload>)
      ensures r.Some? <==> product.Some?
      ensures r.Some? ==> r.value.productId == product.value.id && r.value.quantity == quantity
      ensures r.Some? ==> (r.value.attributesValue.Some? <==> product.value.attributes.Some? && IsTruthy(selectedAttribute))
      ensures r.Some? && r.value.attributesValue.Some? ==> r.value.attributesValue == selectedAttribute
    {
      if product.None? {
        return None;
      }
      var p := product.value;
      var attributesValue := None;
      if p.attributes.Some? && IsTruthy(selectedAttribute) {
        attributesValue := selectedAttribute;
      }
      r := Some(CartPayload(p.id, quantity, attributesValue));
    }
  }
}
