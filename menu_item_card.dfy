/** The menu item card (src/components/MenuItemCard.tsx): unit pricing, the
    draft list of selected add-ons, the two add-to-cart paths, the quantity
    stepper requests and the grouping of add-ons by category. */
module MenuItemCard {
  import opened Wrappers
  import opened Catalog
  import opened Text

  // ---------------------------------------------------------------------------
  // Pricing
  // ---------------------------------------------------------------------------

  /** `item.effectivePrice || item.basePrice`: an absent or zero override
      falls back to the base price. */
  function BasePrice(item: MenuItem): (p: int)
    ensures item.effectivePrice.Some? && item.effectivePrice.value != 0 ==> p == item.effectivePrice.value
    ensures item.effectivePrice.None? || item.effectivePrice.value == 0 ==> p == item.basePrice
  {
    match item.effectivePrice
    case Some(e) => if e != 0 then e else item.basePrice
    case None => item.basePrice
  }

  /** `addOn.quantity || 1`. */
  function Units(a: AddOn): (n: int)
    ensures n != 0
    ensures a.quantity.Some? && a.quantity.value != 0 ==> n == a.quantity.value
    ensures a.quantity.None? || a.quantity.value == 0 ==> n == 1
  {
    match a.quantity
    case Some(q) => if q != 0 then q else 1
    case None => 1
  }

  /** What one selected add-on adds to the unit price. */
  function Charge(a: AddOn): int {
    a.price * Units(a)
  }

  /** The selected variation's delta, 0 when none is selected. */
  function VariationDelta(v: Option<Variation>): int {
    match v
    case Some(x) => x.price
    case None => 0
  }

  /** Sum of the charges of `s`, accumulated front to back. */
  function AddOnsTotal(s: seq<AddOn>): int {
    if |s| == 0 then 0 else AddOnsTotal(s[..|s| - 1]) + Charge(s[|s| - 1])
  }

  /** The unit price the card computes for a selection: with nothing chosen
      it is `effectivePrice || basePrice`, a variation moves it by its delta,
      and the add-ons by their total. */
  function UnitPrice(item: MenuItem, v: Option<Variation>, s: seq<AddOn>): (p: int)
    ensures v.None? && s == [] ==> p == BasePrice(item)
    ensures p - AddOnsTotal(s) == BasePrice(item) + VariationDelta(v)
  {
    BasePrice(item) + VariationDelta(v) + AddOnsTotal(s)
  }

  lemma {:induction false} AddOnsTotalAppend(a: seq<AddOn>, b: seq<AddOn>)
    ensures AddOnsTotal(a + b) == AddOnsTotal(a) + AddOnsTotal(b)
  {
    if |b| > 0 {
      AddOnsTotalAppend(a, b[..|b| - 1]);
      assert (a + b)[..|a + b| - 1] == a + b[..|b| - 1];
    } else {
      assert a + b == a;
    }
  }

  /** Every charge non-negative makes the add-on total non-negative. */
  lemma {:induction false} AddOnsTotalNonNegative(s: seq<AddOn>)
    requires forall i :: 0 <= i < |s| ==> Charge(s[i]) >= 0
    ensures AddOnsTotal(s) >= 0
  {
    if |s| > 0 {
      AddOnsTotalNonNegative(s[..|s| - 1]);
    }
  }

  /** With non-negative variation and add-on prices and add-on quantities of at
      least 1, the unit price is never below `effectivePrice || basePrice`; with
      nothing selected it is exactly that price. */
  lemma UnitPriceAtLeastBase(item: MenuItem, v: Option<Variation>, s: seq<AddOn>)
    requires v.Some? ==> v.value.price >= 0
    requires forall i :: 0 <= i < |s| ==> s[i].price >= 0 && (s[i].quantity.Some? ==> s[i].quantity.value >= 1)
    ensures UnitPrice(item, v, s) >= BasePrice(item)
    ensures v.None? && s == [] ==> UnitPrice(item, v, s) == BasePrice(item)
  {
    forall i | 0 <= i < |s| ensures Charge(s[i]) >= 0 {
      assert Units(s[i]) >= 1;
    }
    AddOnsTotalNonNegative(s);
  }

  /** The fries scenario: base 50.00, variation +20.00, two cheese add-ons at
      10.00 each give a unit price of 90.00 (amounts in centavos). */
  lemma FriesScenario()
    ensures
      var fries := MenuItem("fries", "Fries", 5000, None, [Variation("large", "Large", 2000)], [], true);
      var cheese := AddOn("cheese", "Cheese", 1000, None, Some(2));
      UnitPrice(fries, Some(Variation("large", "Large", 2000)), [cheese]) == 9000
  {
    var cheese := AddOn("cheese", "Cheese", 1000, None, Some(2));
    assert [cheese][..0] == [];
  }

  // ---------------------------------------------------------------------------
  // The draft add-on selection
  // ---------------------------------------------------------------------------

  predicate HasAddOn(s: seq<AddOn>, id: string) {
    exists i :: 0 <= i < |s| && s[i].id == id
  }

  /** `s.filter(a => a.id !== id)`. */
  function WithoutAddOn(s: seq<AddOn>, id: string): (r: seq<AddOn>)
    ensures |r| <= |s|
    ensures forall i :: 0 <= i < |r| ==> r[i].id != id && r[i] in s
    ensures forall a {:trigger a in r} :: a in r <==> a in s && a.id != id
  {
    if |s| == 0 then []
    else if s[0].id == id then WithoutAddOn(s[1..], id)
    else [s[0]] + WithoutAddOn(s[1..], id)
  }

  /** `s.map(a => a.id === id ? { ...a, quantity: q } : a)`. */
  function WithQuantity(s: seq<AddOn>, id: string, q: int): (r: seq<AddOn>)
    ensures |r| == |s|
    ensures forall i :: 0 <= i < |s| ==> r[i] == if s[i].id == id then s[i].(quantity := Some(q)) else s[i]
  {
    if |s| == 0 then []
    else [if s[0].id == id then s[0].(quantity := Some(q)) else s[0]] + WithQuantity(s[1..], id, q)
  }

  /** `updateAddOnQuantity(addOn, newQuantity)` as a transformation of the
      selection it replaces: afterwards the add-on is selected with the new
      quantity exactly when that quantity is positive. */
  function UpdatedAddOns(s: seq<AddOn>, addOn: AddOn, newQuantity: int): (r: seq<AddOn>)
    ensures newQuantity <= 0 ==> !HasAddOn(r, addOn.id)
    ensures newQuantity > 0 ==> exists k :: 0 <= k < |r| && r[k].id == addOn.id && r[k].quantity == Some(newQuantity)
  {
    if newQuantity <= 0 then WithoutAddOn(s, addOn.id)
    else if HasAddOn(s, addOn.id) then WithQuantity(s, addOn.id, newQuantity)
    else
      var r := s + [addOn.(quantity := Some(newQuantity))];
      assert r[|s|].id == addOn.id;
      r
  }

  /** The selection invariant: no id twice, every quantity set and at least 1. */
  predicate WellFormedSelection(s: seq<AddOn>) {
    (forall i, j :: 0 <= i < j < |s| ==> s[i].id != s[j].id) &&
    (forall i :: 0 <= i < |s| ==> s[i].quantity.Some? && s[i].quantity.value >= 1)
  }

  lemma {:induction false} WithoutAbsent(s: seq<AddOn>, id: string)
    requires !HasAddOn(s, id)
    ensures WithoutAddOn(s, id) == s
  {
    if |s| > 0 {
      assert !HasAddOn(s[1..], id) by {
        forall i | 0 <= i < |s| - 1 ensures s[1..][i].id != id {
          assert s[1..][i] == s[i + 1];
        }
      }
      WithoutAbsent(s[1..], id);
      assert [s[0]] + s[1..] == s;
    }
  }

  /** The filter keeps order: filtering a concatenation filters each part. */
  lemma {:induction false} WithoutAddOnAppend(a: seq<AddOn>, b: seq<AddOn>, id: string)
    ensures WithoutAddOn(a + b, id) == WithoutAddOn(a, id) + WithoutAddOn(b, id)
  {
    if |a| > 0 {
      assert (a + b)[1..] == a[1..] + b;
      WithoutAddOnAppend(a[1..], b, id);
    } else {
      assert a + b == b;
    }
  }

  lemma {:induction false} WithoutAt(s: seq<AddOn>, id: string, k: nat)
    requires k < |s| && s[k].id == id
    requires forall i :: 0 <= i < |s| && i != k ==> s[i].id != id
    ensures WithoutAddOn(s, id) == s[..k] + s[k + 1..]
  {
    if k == 0 {
      assert !HasAddOn(s[1..], id) by {
        forall i | 0 <= i < |s| - 1 ensures s[1..][i].id != id {
          assert s[1..][i] == s[i + 1];
        }
      }
      WithoutAbsent(s[1..], id);
    } else {
      var tail := s[1..];
      WithoutAt(tail, id, k - 1);
      assert tail[..k - 1] == s[1..k];
      assert tail[k..] == s[k + 1..];
      assert WithoutAddOn(s, id) == [s[0]] + (s[1..k] + s[k + 1..]);
      assert [s[0]] + s[1..k] == s[..k];
      SeqAssoc([s[0]], s[1..k], s[k + 1..]);
    }
  }

  lemma {:induction false} WithQuantityAt(s: seq<AddOn>, id: string, q: int, k: nat)
    requires k < |s| && s[k].id == id
    requires forall i :: 0 <= i < |s| && i != k ==> s[i].id != id
    ensures WithQuantity(s, id, q) == s[k := s[k].(quantity := Some(q))]
  {
    if |s| > 0 {
      if k == 0 {
        WithQuantityAbsent(s[1..], id, q);
      } else {
        WithQuantityAt(s[1..], id, q, k - 1);
      }
    }
  }

  lemma {:induction false} WithQuantityAbsent(s: seq<AddOn>, id: string, q: int)
    requires forall i :: 0 <= i < |s| ==> s[i].id != id
    ensures WithQuantity(s, id, q) == s
  {
    if |s| > 0 {
      WithQuantityAbsent(s[1..], id, q);
    }
  }

  /** A non-positive quantity removes exactly the entry with that id; every
      other entry keeps its value and its place. */
  lemma RemoveAddOnSpec(s: seq<AddOn>, addOn: AddOn, newQuantity: int)
    requires WellFormedSelection(s)
    requires newQuantity <= 0
    ensures HasAddOn(s, addOn.id) ==>
      exists k :: 0 <= k < |s| && s[k].id == addOn.id && UpdatedAddOns(s, addOn, newQuantity) == s[..k] + s[k + 1..]
    ensures !HasAddOn(s, addOn.id) ==> UpdatedAddOns(s, addOn, newQuantity) == s
  {
    if HasAddOn(s, addOn.id) {
      var k :| 0 <= k < |s| && s[k].id == addOn.id;
      WithoutAt(s, addOn.id, k);
    } else {
      WithoutAbsent(s, addOn.id);
    }
  }

  /** A positive quantity for a selected id replaces that entry's quantity
      and nothing else: same length, same order, same other fields. */
  lemma ReplaceAddOnSpec(s: seq<AddOn>, addOn: AddOn, newQuantity: int, k: nat)
    requires WellFormedSelection(s)
    requires newQuantity > 0 && k < |s| && s[k].id == addOn.id
    ensures UpdatedAddOns(s, addOn, newQuantity) == s[k := s[k].(quantity := Some(newQuantity))]
  {
    WithQuantityAt(s, addOn.id, newQuantity, k);
  }

  /** A positive quantity for an id not yet selected appends a copy of the
      add-on carrying that quantity. */
  lemma AppendAddOnSpec(s: seq<AddOn>, addOn: AddOn, newQuantity: int)
    requires newQuantity > 0 && !HasAddOn(s, addOn.id)
    ensures UpdatedAddOns(s, addOn, newQuantity) == s + [addOn.(quantity := Some(newQuantity))]
  {
  }

  /** Every update keeps the selection invariant. */
  lemma UpdatePreservesWellFormed(s: seq<AddOn>, addOn: AddOn, newQuantity: int)
    requires WellFormedSelection(s)
    ensures WellFormedSelection(UpdatedAddOns(s, addOn, newQuantity))
  {
    if HasAddOn(s, addOn.id) {
      var k :| 0 <= k < |s| && s[k].id == addOn.id;
      if newQuantity <= 0 {
        WithoutAt(s, addOn.id, k);
        RemovalKeepsWellFormed(s, k);
      } else {
        ReplaceAddOnSpec(s, addOn, newQuantity, k);
      }
    } else if newQuantity <= 0 {
      WithoutAbsent(s, addOn.id);
    }
  }

  lemma RemovalKeepsWellFormed(s: seq<AddOn>, k: nat)
    requires WellFormedSelection(s) && k < |s|
    ensures WellFormedSelection(s[..k] + s[k + 1..])
  {
    var r := s[..k] + s[k + 1..];
    forall i | 0 <= i < |r| ensures r[i] == s[if i < k then i else i + 1] { }
  }

  /** Starting from [], any sequence of updates leaves a well-formed selection. */
  function ApplyUpdates(s: seq<AddOn>, updates: seq<(AddOn, int)>): seq<AddOn>
    decreases |updates|
  {
    if |updates| == 0 then s
    else ApplyUpdates(UpdatedAddOns(s, updates[0].0, updates[0].1), updates[1..])
  }

  lemma {:induction false} UpdatesKeepWellFormed(s: seq<AddOn>, updates: seq<(AddOn, int)>)
    requires WellFormedSelection(s)
    ensures WellFormedSelection(ApplyUpdates(s, updates))
    decreases |updates|
  {
    if |updates| > 0 {
      UpdatePreservesWellFormed(s, updates[0].0, updates[0].1);
      UpdatesKeepWellFormed(UpdatedAddOns(s, updates[0].0, updates[0].1), updates[1..]);
    }
  }

  lemma SingleTotal(x: AddOn)
    ensures AddOnsTotal([x]) == Charge(x)
  {
    assert [x][..0] == [];
  }

  /** Taking out entry `k` takes its charge out of the total. */
  lemma TotalWithoutAt(s: seq<AddOn>, k: nat)
    requires k < |s|
    ensures AddOnsTotal(s[..k] + s[k + 1..]) == AddOnsTotal(s) - Charge(s[k])
  {
    var a, x, b := s[..k], s[k], s[k + 1..];
    SplitAround(s, k);
    AddOnsTotalAppend(a + [x], b);
    AddOnsTotalAppend(a, [x]);
    AddOnsTotalAppend(a, b);
    SingleTotal(x);
  }

  /** Replacing entry `k` by `x` swaps its charge for that of `x`. */
  lemma TotalReplaceAt(s: seq<AddOn>, k: nat, x: AddOn)
    requires k < |s|
    ensures AddOnsTotal(s[k := x]) == AddOnsTotal(s) - Charge(s[k]) + Charge(x)
  {
    var a, b := s[..k], s[k + 1..];
    assert s[k := x] == (a + [x]) + b;
    AddOnsTotalAppend(a + [x], b);
    AddOnsTotalAppend(a, [x]);
    SingleTotal(x);
    TotalWithoutAt(s, k);
    AddOnsTotalAppend(a, b);
  }

  /** How an update moves the add-on total: the old charge of the entry with
      that id (if any) leaves, and the new quantity's charge (if positive)
      enters. */
  lemma UpdateChangesTotal(s: seq<AddOn>, addOn: AddOn, newQuantity: int)
    requires WellFormedSelection(s)
    ensures HasAddOn(s, addOn.id) ==>
      exists k :: 0 <= k < |s| && s[k].id == addOn.id &&
        AddOnsTotal(UpdatedAddOns(s, addOn, newQuantity))
          == AddOnsTotal(s) - Charge(s[k]) + (if newQuantity > 0 then s[k].price * newQuantity else 0)
    ensures !HasAddOn(s, addOn.id) ==>
      AddOnsTotal(UpdatedAddOns(s, addOn, newQuantity))
        == AddOnsTotal(s) + (if newQuantity > 0 then addOn.price * newQuantity else 0)
  {
    if HasAddOn(s, addOn.id) {
      var k :| 0 <= k < |s| && s[k].id == addOn.id;
      UpdateExistingTotal(s, addOn, newQuantity, k);
    } else if newQuantity <= 0 {
      WithoutAbsent(s, addOn.id);
    } else {
      var x := addOn.(quantity := Some(newQuantity));
      AddOnsTotalAppend(s, [x]);
      SingleTotal(x);
      assert Charge(x) == addOn.price * newQuantity;
    }
  }

  lemma UpdateExistingTotal(s: seq<AddOn>, addOn: AddOn, newQuantity: int, k: nat)
    requires WellFormedSelection(s) && k < |s| && s[k].id == addOn.id
    ensures AddOnsTotal(UpdatedAddOns(s, addOn, newQuantity))
      == AddOnsTotal(s) - Charge(s[k]) + (if newQuantity > 0 then s[k].price * newQuantity else 0)
  {
    if newQuantity <= 0 {
      WithoutAt(s, addOn.id, k);
      TotalWithoutAt(s, k);
    } else {
      var x := s[k].(quantity := Some(newQuantity));
      ReplaceAddOnSpec(s, addOn, newQuantity, k);
      TotalReplaceAt(s, k, x);
      assert Charge(x) == s[k].price * newQuantity;
    }
  }

  // ---------------------------------------------------------------------------
  // Grouping add-ons by category
  // ---------------------------------------------------------------------------

  /** `addOn.category || 'Extras'`. */
  function CategoryOf(a: AddOn): (c: string)
    ensures c != ""
    ensures a.category.Some? && a.category.value != "" ==> c == a.category.value
    ensures a.category.None? || a.category.value == "" ==> c == "Extras"
  {
    match a.category
    case Some(c) => if c != "" then c else "Extras"
    case None => "Extras"
  }

  /** The add-ons of category `k`, in input order. */
  function InCategory(s: seq<AddOn>, k: string): seq<AddOn> {
    if |s| == 0 then []
    else InCategory(s[..|s| - 1], k) + (if CategoryOf(s[|s| - 1]) == k then [s[|s| - 1]] else [])
  }

  /** The accumulator dictionary of the `reduce`, after the add-ons of `s`:
      every key is a category that names a non-empty group. */
  function Grouped(s: seq<AddOn>): (r: map<string, seq<AddOn>>)
    ensures forall k :: k in r ==> k != "" && |r[k]| > 0
  {
    if |s| == 0 then map[]
    else
      var acc := Grouped(s[..|s| - 1]);
      var a := s[|s| - 1];
      var k := CategoryOf(a);
      acc[k := (if k in acc then acc[k] else []) + [a]]
  }

  /** One more add-on goes to the end of its category's group. */
  lemma GroupedSnoc(s: seq<AddOn>, i: nat)
    requires i < |s|
    ensures var acc := Grouped(s[..i]);
      Grouped(s[..i + 1]) == acc[CategoryOf(s[i]) := (if CategoryOf(s[i]) in acc then acc[CategoryOf(s[i])] else []) + [s[i]]]
  {
    assert s[..i + 1][..i] == s[..i];
  }

  /** The groups are keyed by exactly the categories that occur, and each
      group is the add-ons of its category in their original order. */
  lemma {:induction false} GroupedIsPartition(s: seq<AddOn>)
    ensures forall k :: k in Grouped(s) <==> exists i :: 0 <= i < |s| && CategoryOf(s[i]) == k
    ensures forall k :: k in Grouped(s) ==> Grouped(s)[k] == InCategory(s, k)
  {
    if |s| > 0 {
      var init := s[..|s| - 1];
      GroupedIsPartition(init);
      forall k ensures k in Grouped(s) <==> exists i :: 0 <= i < |s| && CategoryOf(s[i]) == k {
        if k in Grouped(init) {
          var i :| 0 <= i < |init| && CategoryOf(init[i]) == k;
          assert s[i] == init[i];
        }
        if exists i :: 0 <= i < |s| && CategoryOf(s[i]) == k {
          var i :| 0 <= i < |s| && CategoryOf(s[i]) == k;
          if i < |init| {
            assert init[i] == s[i];
          }
        }
      }
      forall k | k in Grouped(s) ensures Grouped(s)[k] == InCategory(s, k) {
        if k !in Grouped(init) {
          assert InCategory(init, k) == [] by { EmptyCategory(init, k); }
        }
      }
    }
  }

  lemma {:induction false} EmptyCategory(s: seq<AddOn>, k: string)
    requires forall i :: 0 <= i < |s| ==> CategoryOf(s[i]) != k
    ensures InCategory(s, k) == []
  {
    if |s| > 0 {
      EmptyCategory(s[..|s| - 1], k);
    }
  }

  /** Each add-on lands in the group of its own category, and a group holds
      nothing of another category. */
  lemma {:induction false} InCategoryMembers(s: seq<AddOn>, k: string)
    ensures forall a :: a in InCategory(s, k) <==> a in s && CategoryOf(a) == k
  {
    if |s| > 0 {
      InCategoryMembers(s[..|s| - 1], k);
      assert s == s[..|s| - 1] + [s[|s| - 1]];
    }
  }

  lemma EachAddOnInItsGroup(s: seq<AddOn>)
    ensures forall i :: 0 <= i < |s| ==> CategoryOf(s[i]) in Grouped(s) && s[i] in Grouped(s)[CategoryOf(s[i])]
    ensures forall k, a :: k in Grouped(s) && a in Grouped(s)[k] ==> a in s && CategoryOf(a) == k
  {
    GroupedIsPartition(s);
    forall k | k in Grouped(s) ensures forall a :: a in Grouped(s)[k] <==> a in s && CategoryOf(a) == k {
      InCategoryMembers(s, k);
    }
    forall i | 0 <= i < |s| ensures CategoryOf(s[i]) in Grouped(s) && s[i] in Grouped(s)[CategoryOf(s[i])] {
      InCategoryMembers(s, CategoryOf(s[i]));
    }
  }

  // ---------------------------------------------------------------------------
  // Cart lines the card builds, and the requests its stepper emits
  // ---------------------------------------------------------------------------

  /** The card customises an item that has variations or add-ons. */
  predicate NeedsCustomization(item: MenuItem): (needed: bool)
    ensures needed <==> InitialVariation(item).Some? || item.addOns != []
  {
    |item.variations| > 0 || |item.addOns| > 0
  }

  /** The variation selected when the card appears: the first one, if any. */
  function InitialVariation(item: MenuItem): (v: Option<Variation>)
    ensures v.Some? <==> |item.variations| > 0
    ensures v.Some? ==> v.value == item.variations[0]
  {
    if |item.variations| > 0 then Some(item.variations[0]) else None
  }

  /** The line added directly for an item without options. */
  function PlainLine(item: MenuItem): (line: CartItem)
    ensures line.id == item.id && line.name == item.name && line.quantity == 1
    ensures line.selectedVariation.None? && line.selectedAddOns.None?
    ensures line.totalPrice == UnitPrice(item, None, [])
  {
    CartItem(item.id, item.name, 1, None, None, BasePrice(item))
  }

  /** The line added from the customiser. */
  function CustomizedLine(item: MenuItem, v: Option<Variation>, s: seq<AddOn>): (line: CartItem)
    ensures line.id == item.id && line.name == item.name && line.quantity == 1
    ensures line.selectedVariation == v
    ensures line.selectedAddOns.Some? <==> |s| > 0
    ensures line.selectedAddOns.Some? ==> line.selectedAddOns.value == s
    ensures line.totalPrice == BasePrice(item) + VariationDelta(v) + AddOnsTotal(s)
  {
    CartItem(item.id, item.name, 1, v, if |s| > 0 then Some(s) else None, UnitPrice(item, v, s))
  }

  /** Customising nothing gives the same line as the direct path. */
  lemma CustomizedWithoutChoicesIsPlain(item: MenuItem)
    ensures CustomizedLine(item, None, []) == PlainLine(item)
  {
  }

  /** `cartItem?.quantity || 0`: the count the card shows. */
  function CardQuantity(cartItem: Option<CartItem>): (q: int)
    ensures cartItem.None? ==> q == 0
    ensures cartItem.Some? ==> q == cartItem.value.quantity
  {
    match cartItem
    case Some(ci) => ci.quantity
    case None => 0
  }

  /** `handleIncrement`: a request only when the callback and the line exist. */
  function IncrementRequest(cartItem: Option<CartItem>, canUpdate: bool): (r: Option<QuantityRequest>)
    ensures r.Some? <==> canUpdate && cartItem.Some?
    ensures r.Some? ==> r.value.id == cartItem.value.id && r.value.quantity == cartItem.value.quantity + 1
  {
    if canUpdate && cartItem.Some? then Some(QuantityRequest(cartItem.value.id, cartItem.value.quantity + 1)) else None
  }

  /** `handleDecrement`: `Math.max(0, quantity - 1)`, never negative. */
  function DecrementRequest(cartItem: Option<CartItem>, canUpdate: bool): (r: Option<QuantityRequest>)
    ensures r.Some? <==> canUpdate && cartItem.Some?
    ensures r.Some? ==> r.value.id == cartItem.value.id && r.value.quantity >= 0
    ensures r.Some? ==> r.value.quantity >= cartItem.value.quantity - 1
    ensures r.Some? && cartItem.value.quantity >= 1 ==> r.value.quantity == cartItem.value.quantity - 1
    ensures r.Some? && cartItem.value.quantity < 1 ==> r.value.quantity == 0
  {
    if canUpdate && cartItem.Some? then
      var q := cartItem.value.quantity - 1;
      Some(QuantityRequest(cartItem.value.id, if q > 0 then q else 0))
    else None
  }

  /** The control in the card's corner. */
  datatype CardControl = SoldOut | OrderButton(caption: string) | Stepper(count: int)

  function Control(item: MenuItem, cartItem: Option<CartItem>): (c: CardControl)
    ensures !item.available <==> c.SoldOut?
    ensures c.OrderButton? <==> item.available && CardQuantity(cartItem) == 0
    ensures c.OrderButton? ==> (c.caption == "Options" <==> NeedsCustomization(item))
    ensures c.Stepper? ==> c.count == CardQuantity(cartItem) && c.count != 0
  {
    if !item.available then SoldOut
    else if CardQuantity(cartItem) == 0 then OrderButton(if NeedsCustomization(item) then "Options" else "Order")
    else Stepper(CardQuantity(cartItem))
  }

  // ---------------------------------------------------------------------------
  // The card's state
  // ---------------------------------------------------------------------------

  class Card {
    const item: MenuItem
    var showCustomization: bool
    var selectedVariation: Option<Variation>
    var selectedAddOns: seq<AddOn>

    ghost predicate Valid()
      reads this
    {
      WellFormedSelection(selectedAddOns)
    }

    constructor (item: MenuItem)
      ensures this.item == item && Valid()
      ensures !showCustomization && selectedVariation == InitialVariation(item) && selectedAddOns == []
    {
      this.item := item;
      showCustomization := false;
      selectedVariation := InitialVariation(item);
      selectedAddOns := [];
    }

    /** `calculatePrice`: the add-on charges accumulated one by one. */
    method CalculatePrice() returns (price: int)
      ensures price == UnitPrice(item, selectedVariation, selectedAddOns)
    {
      price := BasePrice(item);
      if selectedVariation.Some? {
        price := price + selectedVariation.value.price;
      }
      var i := 0;
      while i < |selectedAddOns|
        invariant 0 <= i <= |selectedAddOns|
        invariant price == BasePrice(item) + VariationDelta(selectedVariation) + AddOnsTotal(selectedAddOns[..i])
      {
        assert selectedAddOns[..i + 1][..i] == selectedAddOns[..i];
        price := price + selectedAddOns[i].price * Units(selectedAddOns[i]);
        i := i + 1;
      }
      assert selectedAddOns[..i] == selectedAddOns;
    }

    /** `handleAddToCart`: items with options open the customiser and add
        nothing; other items are added at once. */
    method HandleAddToCart() returns (added: Option<CartItem>)
      modifies this`showCustomization
      ensures added.Some? <==> item.variations == [] && item.addOns == []
      ensures NeedsCustomization(item) ==> added.None? && showCustomization
      ensures !NeedsCustomization(item) ==> added == Some(PlainLine(item)) && showCustomization == old(showCustomization)
    {
      if NeedsCustomization(item) {
        showCustomization := true;
        added := None;
      } else {
        added := Some(PlainLine(item));
      }
    }

    /** `handleCustomizedAddToCart`: adds the drafted line, closes the
        customiser and clears the drafted add-ons (the variation stays). */
    method HandleCustomizedAddToCart() returns (line: CartItem)
      modifies this`showCustomization, this`selectedAddOns
      ensures line == CustomizedLine(item, selectedVariation, old(selectedAddOns))
      ensures !showCustomization && selectedAddOns == [] && Valid()
    {
      var price := CalculatePrice();
      line := CartItem(item.id, item.name, 1, selectedVariation,
        if |selectedAddOns| > 0 then Some(selectedAddOns) else None, price);
      showCustomization := false;
      selectedAddOns := [];
    }

    /** The customiser's close button. */
    method CloseCustomization()
      modifies this`showCustomization
      ensures !showCustomization
    {
      showCustomization := false;
    }

    /** A variation's radio button. */
    method SelectVariation(v: Variation)
      modifies this`selectedVariation
      ensures selectedVariation == Some(v)
    {
      selectedVariation := Some(v);
    }

    /** `updateAddOnQuantity`. */
    method UpdateAddOnQuantity(addOn: AddOn, newQuantity: int)
      requires Valid()
      modifies this`selectedAddOns
      ensures Valid()
      ensures selectedAddOns == UpdatedAddOns(old(selectedAddOns), addOn, newQuantity)
    {
      if newQuantity <= 0 {
        selectedAddOns := WithoutAddOn(selectedAddOns, addOn.id);
      } else if HasAddOn(selectedAddOns, addOn.id) {
        selectedAddOns := WithQuantity(selectedAddOns, addOn.id, newQuantity);
      } else {
        selectedAddOns := selectedAddOns + [addOn.(quantity := Some(newQuantity))];
      }
      UpdatePreservesWellFormed(old(selectedAddOns), addOn, newQuantity);
    }

    /** The add-on ADD button: select it once. */
    method AddAddOn(addOn: AddOn)
      requires Valid()
      modifies this`selectedAddOns
      ensures Valid()
      ensures selectedAddOns == UpdatedAddOns(old(selectedAddOns), addOn, 1)
    {
      UpdateAddOnQuantity(addOn, 1);
    }

    /** The add-on "+" button: `(current?.quantity || 0) + 1`. */
    method IncrementAddOn(addOn: AddOn)
      requires Valid()
      modifies this`selectedAddOns
      ensures Valid()
      ensures selectedAddOns == UpdatedAddOns(old(selectedAddOns), addOn, SelectedUnits(old(selectedAddOns), addOn.id, 0) + 1)
    {
      UpdateAddOnQuantity(addOn, SelectedUnits(selectedAddOns, addOn.id, 0) + 1);
    }

    /** The add-on "-" button: `(current?.quantity || 1) - 1`. */
    method DecrementAddOn(addOn: AddOn)
      requires Valid()
      modifies this`selectedAddOns
      ensures Valid()
      ensures selectedAddOns == UpdatedAddOns(old(selectedAddOns), addOn, SelectedUnits(old(selectedAddOns), addOn.id, 1) - 1)
    {
      UpdateAddOnQuantity(addOn, SelectedUnits(selectedAddOns, addOn.id, 1) - 1);
    }

    /** `groupedAddOns`: the reduce that pushes each add-on into the array
        of its category, starting that array when the category is new. */
    method GroupAddOns() returns (groups: map<string, seq<AddOn>>)
      ensures groups == Grouped(item.addOns)
    {
      var s := item.addOns;
      groups := map[];
      var i := 0;
      while i < |s|
        invariant 0 <= i <= |s|
        invariant groups == Grouped(s[..i])
      {
        var category := CategoryOf(s[i]);
        var group := if category in groups then groups[category] else [];
        groups := groups[category := group + [s[i]]];
        GroupedSnoc(s, i);
        i := i + 1;
      }
      assert s[..i] == s;
    }
  }

  /** `selectedAddOns.find(a => a.id === id)?.quantity || fallback`: an id
      that is not selected gives the fallback, and anything else is the
      quantity of a selected entry with that id. */
  function SelectedUnits(s: seq<AddOn>, id: string, fallback: int): (u: int)
    ensures !HasAddOn(s, id) ==> u == fallback
    ensures u != fallback ==> exists i :: 0 <= i < |s| && s[i].id == id && s[i].quantity == Some(u)
  {
    if |s| == 0 then fallback
    else if s[0].id == id then
      (match s[0].quantity case Some(q) => if q != 0 then q else fallback case None => fallback)
    else
      var u := SelectedUnits(s[1..], id, fallback);
      assert forall i :: 0 <= i < |s| - 1 ==> s[1..][i] == s[i + 1];
      u
  }

  /** "-" on an add-on selected once removes it; "+" on a selected add-on
      raises its quantity by one, in place. */
  lemma StepperOnSelectedAddOn(s: seq<AddOn>, addOn: AddOn, k: nat)
    requires WellFormedSelection(s) && k < |s| && s[k].id == addOn.id
    ensures SelectedUnits(s, addOn.id, 1) == s[k].quantity.value
    ensures s[k].quantity.value == 1 ==> UpdatedAddOns(s, addOn, SelectedUnits(s, addOn.id, 1) - 1) == s[..k] + s[k + 1..]
    ensures UpdatedAddOns(s, addOn, SelectedUnits(s, addOn.id, 0) + 1) == s[k := s[k].(quantity := Some(s[k].quantity.value + 1))]
  {
    SelectedUnitsAt(s, addOn.id, 1, k);
    SelectedUnitsAt(s, addOn.id, 0, k);
    if s[k].quantity.value == 1 {
      RemoveAddOnSpec(s, addOn, 0);
    }
    ReplaceAddOnSpec(s, addOn, s[k].quantity.value + 1, k);
  }

  lemma {:induction false} SelectedUnitsAt(s: seq<AddOn>, id: string, fallback: int, k: nat)
    requires WellFormedSelection(s) && k < |s| && s[k].id == id
    ensures SelectedUnits(s, id, fallback) == s[k].quantity.value
  {
    if k > 0 {
      SelectedUnitsAt(s[1..], id, fallback, k - 1);
    }
  }
}
