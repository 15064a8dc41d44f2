/** The cart view (src/components/Cart.tsx): it keeps no state of its own; it
    shows each line with its extras and subtotal, and turns button presses
    into calls on the cart store, which is not part of this model. */
module Cart {
  import opened Wrappers
  import opened Text
  import opened Catalog

  /** One add-on as the cart and the order transcript print it:
      `quantity && quantity > 1 ? "name xN" : name`. */
  function AddOnLabel(a: AddOn): (r: string)
    ensures |r| >= |a.name| && r[..|a.name|] == a.name
  {
    if a.quantity.Some? && a.quantity.value > 1 then a.name + " x" + IntToDecimal(a.quantity.value)
    else a.name
  }

  /** The label carries a count suffix exactly when the quantity is above 1,
      and that suffix reads back as the quantity. */
  lemma AddOnLabelRule(a: AddOn)
    ensures AddOnLabel(a) != a.name <==> a.quantity.Some? && a.quantity.value > 1
    ensures a.quantity.Some? && a.quantity.value > 1 ==>
      AddOnLabel(a)[..|a.name| + 2] == a.name + " x" &&
      DecimalValue(AddOnLabel(a)[|a.name| + 2..]) == a.quantity.value
  {
    if a.quantity.Some? && a.quantity.value > 1 {
      var text := AddOnLabel(a);
      assert |text| > |a.name|;
      assert text[|a.name| + 2..] == IntToDecimal(a.quantity.value);
      IntToDecimalRoundTrip(a.quantity.value);
    }
  }

  /** The labels of a selection, comma separated, in selection order: empty
      for no add-ons, and led by the first add-on's label otherwise. */
  function AddOnsText(s: seq<AddOn>): (r: string)
    ensures |s| == 0 ==> r == ""
    ensures |s| == 1 ==> r == AddOnLabel(s[0])
    ensures |s| > 0 ==> |r| >= |AddOnLabel(s[0])| && r[..|AddOnLabel(s[0])|] == AddOnLabel(s[0])
  {
    Join(Labels(s), ", ")
  }

  /** Selection order is kept: the text of two non-empty selections is the
      text of the first, ", ", then the text of the second. */
  lemma AddOnsTextAppend(a: seq<AddOn>, b: seq<AddOn>)
    requires |a| > 0 && |b| > 0
    ensures AddOnsText(a + b) == AddOnsText(a) + ", " + AddOnsText(b)
  {
    assert Labels(a + b) == Labels(a) + Labels(b);
    JoinAppend(Labels(a), Labels(b), ", ");
  }

  function Labels(s: seq<AddOn>): (r: seq<string>)
    ensures |r| == |s|
    ensures forall i :: 0 <= i < |s| ==> r[i] == AddOnLabel(s[i])
  {
    if |s| == 0 then [] else [AddOnLabel(s[0])] + Labels(s[1..])
  }

  /** `item.totalPrice * item.quantity`: the unit price frozen in the line
      times the line's count. */
  function LineSubtotal(item: CartItem): (r: int)
    ensures item.quantity == 1 ==> r == item.totalPrice
    ensures item.quantity == 0 ==> r == 0
    ensures item.totalPrice >= 0 && item.quantity >= 0 ==> r >= 0
  {
    item.totalPrice * item.quantity
  }

  /** The "Extras" text under a line, present only for a non-empty selection. */
  function ExtrasLine(item: CartItem): (r: Option<string>)
    ensures r.Some? <==> item.selectedAddOns.Some? && |item.selectedAddOns.value| > 0
    ensures r.Some? ==> r.value == "Extras: " + AddOnsText(item.selectedAddOns.value)
  {
    if item.selectedAddOns.Some? && |item.selectedAddOns.value| > 0 then
      Some("Extras: " + AddOnsText(item.selectedAddOns.value))
    else None
  }

  /** The variation badge, present only when a variation was chosen. */
  function VariationBadge(item: CartItem): (r: Option<string>)
    ensures r.Some? <==> item.selectedVariation.Some?
    ensures r.Some? ==> r.value == item.selectedVariation.value.name
  {
    match item.selectedVariation
    case Some(v) => Some(v.name)
    case None => None
  }

  /** What a press in the cart view asks of its callers. */
  datatype CartAction =
    | ContinueShopping
    | ClearCart
    | Checkout
    | UpdateQuantity(request: QuantityRequest)
    | RemoveFromCart(id: string)

  /** The "-" button of a line: `quantity - 1`, not clamped. */
  function MinusAction(item: CartItem): (a: CartAction)
    ensures a.UpdateQuantity? && a.request.id == item.id
    ensures a.request.quantity + 1 == item.quantity
  {
    UpdateQuantity(QuantityRequest(item.id, item.quantity - 1))
  }

  /** The "+" button of a line: `quantity + 1`. */
  function PlusAction(item: CartItem): (a: CartAction)
    ensures a.UpdateQuantity? && a.request.id == item.id
    ensures a.request.quantity == item.quantity + 1
  {
    UpdateQuantity(QuantityRequest(item.id, item.quantity + 1))
  }

  /** The three buttons of one line, in screen order. */
  function LineActions(item: CartItem): (r: seq<CartAction>)
    ensures |r| == 3
    ensures r[0] == MinusAction(item) && r[1] == PlusAction(item) && r[2] == RemoveFromCart(item.id)
    ensures forall a :: a in r ==> (a.UpdateQuantity? && a.request.id == item.id) || a == RemoveFromCart(item.id)
  {
    [MinusAction(item), PlusAction(item), RemoveFromCart(item.id)]
  }

  function AllLineActions(items: seq<CartItem>): (r: seq<CartAction>)
    ensures |r| == 3 * |items|
    ensures forall i :: 0 <= i < |items| ==> r[3 * i..3 * i + 3] == LineActions(items[i])
  {
    if |items| == 0 then []
    else
      var rest := AllLineActions(items[1..]);
      var r := LineActions(items[0]) + rest;
      assert forall i :: 1 <= i < |items| ==> r[3 * i..3 * i + 3] == rest[3 * (i - 1)..3 * (i - 1) + 3];
      r
  }

  /** Every action the view offers: an empty cart offers only "Explore Menu";
      otherwise "Go Back", "Reset Cart", the buttons of each line and
      "Checkout Now". */
  function Actions(items: seq<CartItem>): (r: seq<CartAction>)
    ensures |r| > 0 && r[0] == ContinueShopping
    ensures |items| == 0 ==> r == [ContinueShopping]
    ensures |items| > 0 ==> |r| == 3 * |items| + 3 && r[1] == ClearCart && r[|r| - 1] == Checkout
  {
    if |items| == 0 then [ContinueShopping]
    else [ContinueShopping, ClearCart] + AllLineActions(items) + [Checkout]
  }

  lemma {:induction false} LineActionsAreLineActions(items: seq<CartItem>)
    ensures forall a :: a in AllLineActions(items) ==> a.UpdateQuantity? || a.RemoveFromCart?
  {
    if |items| > 0 {
      LineActionsAreLineActions(items[1..]);
    }
  }

  /** Checkout is offered exactly when the cart is not empty, and an empty
      cart offers nothing but going back to the menu. */
  lemma CheckoutOnlyWithItems(items: seq<CartItem>)
    ensures Checkout in Actions(items) <==> |items| > 0
    ensures |items| == 0 ==> Actions(items) == [ContinueShopping]
    ensures ClearCart in Actions(items) <==> |items| > 0
  {
    LineActionsAreLineActions(items);
  }

  /** Every line offers its own remove, and remove only ever names a line
      that is shown. */
  lemma {:induction false} RemoveTargetsLines(items: seq<CartItem>)
    ensures forall i :: 0 <= i < |items| ==> RemoveFromCart(items[i].id) in Actions(items)
    ensures forall id :: RemoveFromCart(id) in Actions(items) ==> exists i :: 0 <= i < |items| && items[i].id == id
  {
    if |items| > 0 {
      forall i | 0 <= i < |items| ensures RemoveFromCart(items[i].id) in Actions(items) {
        LineOffersRemove(items, i);
      }
      var all := AllLineActions(items);
      assert Actions(items) == [ContinueShopping, ClearCart] + all + [Checkout];
      forall id | RemoveFromCart(id) in Actions(items) ensures RemoveFromCart(id) in all { }
      RemoveNamesALine(items);
    }
  }

  /** Every line's "-" and "+" buttons are on offer. */
  lemma LineOffersSteppers(items: seq<CartItem>, i: nat)
    requires i < |items|
    ensures MinusAction(items[i]) in Actions(items) && PlusAction(items[i]) in Actions(items)
  {
    var all := AllLineActions(items);
    assert all[3 * i..3 * i + 3] == LineActions(items[i]);
    assert all[3 * i] == MinusAction(items[i]) && all[3 * i + 1] == PlusAction(items[i]);
    var acts := [ContinueShopping, ClearCart] + all + [Checkout];
    assert acts[2 + 3 * i] == all[3 * i] && acts[2 + 3 * i + 1] == all[3 * i + 1];
  }

  lemma LineOffersRemove(items: seq<CartItem>, i: nat)
    requires i < |items|
    ensures RemoveFromCart(items[i].id) in Actions(items)
  {
    var all := AllLineActions(items);
    assert all[3 * i..3 * i + 3] == LineActions(items[i]);
    assert all[3 * i + 2] == RemoveFromCart(items[i].id);
    var acts := [ContinueShopping, ClearCart] + all + [Checkout];
    assert acts[2 + 3 * i + 2] == all[3 * i + 2];
  }

  lemma {:induction false} RemoveNamesALine(items: seq<CartItem>)
    ensures forall id :: RemoveFromCart(id) in AllLineActions(items) ==> exists i :: 0 <= i < |items| && items[i].id == id
  {
    if |items| > 0 {
      RemoveNamesALine(items[1..]);
      forall id | RemoveFromCart(id) in AllLineActions(items) ensures exists i :: 0 <= i < |items| && items[i].id == id {
        if RemoveFromCart(id) in AllLineActions(items[1..]) {
          var i :| 0 <= i < |items| - 1 && items[1..][i].id == id;
          assert items[i + 1].id == id;
        } else {
          assert items[0].id == id;
        }
      }
    }
  }

  /** The cart's "-" is not clamped: a line of one asks for 0 and a line of 0
      asks for -1, whereas the menu card never asks for less than 0. */
  lemma MinusIsUnclamped(item: CartItem)
    ensures item.quantity == 1 ==> MinusAction(item).request.quantity == 0
    ensures item.quantity <= 0 ==> MinusAction(item).request.quantity < 0
  {
  }

  /** "+" then the subtotal: one more unit adds exactly one frozen unit price. */
  lemma PlusAddsOneUnit(item: CartItem)
    ensures LineSubtotal(item.(quantity := PlusAction(item).request.quantity)) == LineSubtotal(item) + item.totalPrice
  {
  }

  /** `getTotalPrice() || 0`: a missing or NaN total shows as 0. */
  function DisplayedTotal(total: Option<int>): (shown: int)
    ensures total.None? ==> shown == 0
    ensures total.Some? ==> shown == total.value
  {
    total.GetOr(0)
  }
}
