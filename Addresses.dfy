/** The delivery-address list of the account settings: adding the typed
    address and removing one by its position. */
module Addresses {

  /** `addresses.filter((_, i) => i !== index)`: the list without the entry at
      `index`; an index outside the list removes nothing. */
  function WithoutIndex(s: seq<string>, index: int): (r: seq<string>)
    ensures 0 <= index < |s| ==> |r| == |s| - 1
    ensures 0 <= index < |s| ==> forall k :: 0 <= k < index ==> r[k] == s[k]
    ensures 0 <= index < |s| ==> forall k :: index <= k < |r| ==> r[k] == s[k + 1]
    ensures !(0 <= index < |s|) ==> r == s
    decreases |s|
  {
    if s == [] then []
    else
      assert s == s[..|s| - 1] + [s[|s| - 1]];
      WithoutIndex(s[..|s| - 1], index) + (if index == |s| - 1 then [] else [s[|s| - 1]])
  }

  /** Removing the entry just added gives the old list back. */
  lemma RemoveLastUndoesAdd(s: seq<string>, address: string)
    ensures WithoutIndex(s + [address], |s|) == s
  {
  }

  class AddressContent {
    var addresses: seq<string>
    var newAddress: string

    constructor ()
      ensures addresses == [] && newAddress == ""
    {
      addresses := [];
      newAddress := "";
    }

    /** Typing in the address field. */
    method SetNewAddress(value: string)
      modifies this`newAddress
      ensures newAddress == value
    {
      newAddress := value;
    }

    /** `handleAddAddress`: a non-empty typed address is appended and the field
        cleared; an empty field changes nothing. */
    method HandleAddAddress()
      modifies this
      ensures old(newAddress) != "" ==> addresses == old(addresses) + [old(newAddress)] && newAddress == ""
      ensures old(newAddress) == "" ==> addresses == old(addresses) && newAddress == old(newAddress)
    {
      if newAddress != "" {
        addresses := addresses + [newAddress];
        newAddress := "";
      }
    }

    /** `handleRemoveAddress`. */
    method HandleRemoveAddress(index: int)
      modifies this`addresses
      ensures addresses == WithoutIndex(old(addresses), index)
    {
      addresses := WithoutIndex(addresses, index);
    }
  }
}
