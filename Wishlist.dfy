/** The wishlist page: removing one product, and clearing the list, each after
    the server has accepted the deletion. */
module Wishlist {
  import opened Common

  datatype WishlistItem = WishlistItem(id: string, name: string, price: real, stock: int)

  /** `wishlistItems.filter((item) => item._id !== productId)`. */
  function WithoutProduct(items: seq<WishlistItem>, productId: string): (r: seq<WishlistItem>)
    ensures forall item :: item in r <==> item in items && item.id != productId
    ensures forall item :: multiset(r)[item] == if item.id != productId then multiset(items)[item] else 0
    ensures IsSubsequence(r, items)
  {
    FilterIsSubsequence(items, (item: WishlistItem) => item.id != productId);
    Filter(items, (item: WishlistItem) => item.id != productId)
  }

  /** Removing a product that is not on the list leaves the list as it was. */
  lemma RemovingAbsentIsNoop(items: seq<WishlistItem>, productId: string)
    requires forall item :: item in items ==> item.id != productId
    ensures WithoutProduct(items, productId) == items
  {
    FilterKeepsAll(items, (item: WishlistItem) => item.id != productId);
  }

  /** Removing the same product twice is removing it once. */
  lemma RemovalIdempotent(items: seq<WishlistItem>, productId: string)
    ensures WithoutProduct(WithoutProduct(items, productId), productId) == WithoutProduct(items, productId)
  {
    FilterIdempotent(items, (item: WishlistItem) => item.id != productId);
  }

  class WishlistPage {
    var wishlistItems: seq<WishlistItem>

    constructor ()
      ensures wishlistItems == []
    {
      wishlistItems := [];
    }

    /** `fetchWishlist`: a successful fetch replaces the list. */
    method FetchWishlist(response: Option<seq<WishlistItem>>)
      modifies this
      ensures wishlistItems == if response.Some? then response.value else old(wishlistItems)
    {
      if response.Some? {
        wishlistItems := response.value;
      }
    }

    /** `handleRemoveFromWishlist`: once the server deleted the item, no entry
        with that id remains and the others keep their order; a failed call
        changes nothing. */
    method HandleRemoveFromWishlist(productId: string, serverOk: bool)
      modifies this
      ensures serverOk ==> wishlistItems == WithoutProduct(old(wishlistItems), productId)
      ensures !serverOk ==> wishlistItems == old(wishlistItems)
    {
      if serverOk {
        wishlistItems := WithoutProduct(wishlistItems, productId);
      }
    }

    /** `handleClearWishlist`. */
    method HandleClearWishlist(serverOk: bool)
      modifies this
      ensures serverOk ==> wishlistItems == []
      ensures !serverOk ==> wishlistItems == old(wishlistItems)
    {
      if serverOk {
        wishlistItems := [];
      }
    }
  }
}
