/** The catalogue and cart records the three views share. The repository's
    type declarations (src/types) are not part of this model; the fields here
    are the ones the views read. Prices and amounts are integers in the
    smallest currency unit. */
module Catalog {
  import opened Wrappers

  /** A size or type choice of a menu item with its price delta. */
  datatype Variation = Variation(id: string, name: string, price: int)

  /** An extra for a menu item. `category` is the grouping label; `quantity`
      is set on the copies kept in a selection. */
  datatype AddOn = AddOn(id: string, name: string, price: int, category: Option<string>, quantity: Option<int>)

  /** A catalogue entry. `effectivePrice` is the price override the card
      prices with; an absent variation or add-on list is modelled as []. */
  datatype MenuItem = MenuItem(
    id: string,
    name: string,
    basePrice: int,
    effectivePrice: Option<int>,
    variations: seq<Variation>,
    addOns: seq<AddOn>,
    available: bool)

  /** A cart line: the item's identity and name, the shopper's unit count, the
      chosen variation and add-ons, and `totalPrice`, the UNIT price frozen
      when the line was created. */
  datatype CartItem = CartItem(
    id: string,
    name: string,
    quantity: int,
    selectedVariation: Option<Variation>,
    selectedAddOns: Option<seq<AddOn>>,
    totalPrice: int)

  /** A call `updateQuantity(id, quantity)` on the cart store. */
  datatype QuantityRequest = QuantityRequest(id: string, quantity: int)
}
