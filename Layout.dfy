/** The page layout's cart sidebar: whether it is open, for which product,
    and how the open flag is kept in local storage across reloads. */
module Layout {
  import opened Common

  /** The value stored under the "cart-sidebar" key for a flag. */
  function Encode(open: bool): (s: string)
    ensures s == "open" || s == "closed"
  {
    if open then "open" else "closed"
  }

  /** Reading the flag back: only the exact string "open" means open. */
  predicate Decode(stored: Option<string>)
  {
    stored == Some("open")
  }

  /** What is written for a flag reads back as that flag. */
  lemma DecodeEncode(open: bool)
    ensures Decode(Some(Encode(open))) == open
  {
  }

  /** A missing entry, and any stored string other than "open", reads as closed. */
  lemma OtherValuesDecodeClosed(stored: Option<string>)
    requires stored != Some("open")
    ensures !Decode(stored)
  {
  }

  class DefaultLayout {
    var isCartOpen: bool
    var cartProductId: Option<string>
    var stored: Option<string>   // the "cart-sidebar" entry of local storage

    /** Local storage holds the current flag. */
    predicate Persisted()
      reads this
    {
      stored == Some(Encode(isCartOpen))
    }

    /** The sidebar is open exactly when it has a product to show. */
    predicate ShowsProduct()
      reads this
    {
      isCartOpen <==> cartProductId.Some?
    }

    /** Mounting: the flag is read from storage and written straight back. */
    constructor (initial: Option<string>)
      ensures isCartOpen == Decode(initial) && cartProductId == None
      ensures Persisted()
    {
      isCartOpen := initial == Some("open");
      cartProductId := None;
      stored := Some(if initial == Some("open") then "open" else "closed");
    }

    /** `openCart(productId)`. */
    method OpenCart(productId: string)
      modifies this
      ensures isCartOpen && cartProductId == Some(productId)
      ensures Persisted() && ShowsProduct()
    {
      cartProductId := Some(productId);
      isCartOpen := true;
      stored := Some(Encode(isCartOpen));
    }

    /** `closeCart`: the resulting state does not depend on the old one, so
        closing twice is closing once. */
    method CloseCart()
      modifies this
      ensures !isCartOpen && cartProductId == None
      ensures Persisted() && ShowsProduct()
    {
      isCartOpen := false;
      cartProductId := None;
      stored := Some(Encode(isCartOpen));
    }
  }
}
