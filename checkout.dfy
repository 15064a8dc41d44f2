/** The checkout (src/components/Checkout.tsx): the details form and its
    validity rule, the details -> payment sequencing, the party-size stepper,
    the default payment method, and the order transcript handed to the
    messaging app. */
module Checkout {
  import opened Wrappers
  import opened Text
  import opened Catalog
  import Cart

  datatype Step = Details | Payment

  datatype ServiceType = DineIn | Pickup | Delivery

  /** The service type's value in the form: 'dine-in', 'pickup', 'delivery'. */
  function ServiceValue(t: ServiceType): string {
    match t
    case DineIn => "dine-in"
    case Pickup => "pickup"
    case Delivery => "delivery"
  }

  /** The service as the transcript names it: the value with its first letter
      upper-cased. */
  function ServiceLabel(t: ServiceType): (r: string)
    ensures r == (match t case DineIn => "Dine-in" case Pickup => "Pickup" case Delivery => "Delivery")
  {
    Capitalize(ServiceValue(t))
  }

  /** A payment option from the payment-method source. */
  datatype PaymentMethodInfo = PaymentMethodInfo(id: string, name: string)

  /** The values of the checkout form. `pickupTime` is one of the presets
      '5-10', '15-20', '25-30' or 'custom'; `paymentMethod` is a method id,
      "" while none is chosen. */
  datatype Form = Form(
    customerName: string,
    contactNumber: string,
    serviceType: ServiceType,
    address: string,
    landmark: string,
    pickupTime: string,
    customTime: string,
    partySize: int,
    dineInTime: string,
    paymentMethod: string,
    notes: string)

  const InitialForm := Form("", "", DineIn, "", "", "5-10", "", 1, "", "", "")

  /** `isDetailsValid`: name and contact given, plus what the service type
      needs. */
  predicate IsDetailsValid(f: Form): (ok: bool)
    ensures ok ==> f.customerName != "" && f.contactNumber != ""
    ensures ok && f.serviceType == Delivery ==> f.address != ""
    ensures ok && f.serviceType == DineIn ==> f.dineInTime != ""
  {
    f.customerName != "" && f.contactNumber != "" &&
    (f.serviceType != Delivery || f.address != "") &&
    (f.serviceType != Pickup || (f.pickupTime != "custom" || f.customTime != "")) &&
    (f.serviceType != DineIn || (f.partySize > 0 && f.dineInTime != ""))
  }

  /** The rule, one service type at a time. */
  lemma DetailsValidByService(f: Form)
    ensures f.serviceType == Delivery ==>
      (IsDetailsValid(f) <==> f.customerName != "" && f.contactNumber != "" && f.address != "")
    ensures f.serviceType == Pickup ==>
      (IsDetailsValid(f) <==> f.customerName != "" && f.contactNumber != "" && (f.pickupTime == "custom" ==> f.customTime != ""))
    ensures f.serviceType == DineIn ==>
      (IsDetailsValid(f) <==> f.customerName != "" && f.contactNumber != "" && f.partySize > 0 && f.dineInTime != "")
  {
  }

  /** The fresh form is not valid: nothing has been entered yet. */
  lemma InitialFormInvalid()
    ensures !IsDetailsValid(InitialForm)
  {
  }

  /** A delivery without an address is blocked; filling the address in
      unblocks it when name and contact are given. */
  lemma DeliveryNeedsAddress(f: Form, address: string)
    requires f.serviceType == Delivery && f.customerName != "" && f.contactNumber != ""
    ensures !IsDetailsValid(f.(address := ""))
    ensures address != "" ==> IsDetailsValid(f.(address := address))
  {
  }

  // ---------------------------------------------------------------------------
  // Party size and payment method
  // ---------------------------------------------------------------------------

  const MinPartySize := 1
  const MaxPartySize := 20

  /** The "-" control: `Math.max(1, partySize - 1)`. */
  function FewerGuests(n: int): (r: int)
    ensures r >= MinPartySize
    ensures n > MinPartySize ==> r == n - 1
    ensures n <= MinPartySize ==> r == MinPartySize
  {
    if n - 1 > MinPartySize then n - 1 else MinPartySize
  }

  /** The "+" control: `Math.min(20, partySize + 1)`. */
  function MoreGuests(n: int): (r: int)
    ensures r <= MaxPartySize
    ensures n < MaxPartySize ==> r == n + 1
    ensures n >= MaxPartySize ==> r == MaxPartySize
  {
    if n + 1 < MaxPartySize then n + 1 else MaxPartySize
  }

  /** The default-payment effect: once the list is non-empty and nothing is
      chosen, take the first method's id; a choice is never overwritten. */
  function DefaultPayment(current: string, methods: seq<PaymentMethodInfo>): (r: string)
    ensures current != "" ==> r == current
    ensures current == "" && |methods| > 0 ==> r == methods[0].id
    ensures |methods| == 0 ==> r == current
  {
    if |methods| > 0 && current == "" then methods[0].id else current
  }

  /** Running the effect again changes nothing. */
  lemma DefaultPaymentSettles(current: string, methods: seq<PaymentMethodInfo>)
    ensures DefaultPayment(DefaultPayment(current, methods), methods) == DefaultPayment(current, methods)
  {
  }

  /** `selectedPaymentMethod?.name || paymentMethod`: the first method with
      the chosen id names the payment, unless it is missing or has an empty
      name, in which case the id itself is shown. */
  function PaymentName(methods: seq<PaymentMethodInfo>, id: string): (r: string)
    ensures (exists i :: 0 <= i < |methods| && methods[i].id == id) || r == id
    ensures r != id ==> exists i :: 0 <= i < |methods| && methods[i].id == id && methods[i].name == r
    ensures forall i :: 0 <= i < |methods| && methods[i].id == id && (forall j :: 0 <= j < i ==> methods[j].id != id) ==>
      r == if methods[i].name != "" then methods[i].name else id
  {
    if |methods| == 0 then id
    else if methods[0].id == id then (if methods[0].name != "" then methods[0].name else id)
    else PaymentName(methods[1..], id)
  }

  // ---------------------------------------------------------------------------
  // The order transcript
  // ---------------------------------------------------------------------------

  /** The formatting the transcript borrows from the platform, left
      uninterpreted: `${amount}` of a line subtotal, `toFixed(2)` of the
      total, and `toLocaleString` of the chosen dine-in date and time. */
  datatype Formats = Formats(money: int -> string, fixed2: int -> string, dateTime: string -> string)

  const NL := "\n"

  /** `timeInfo`: the custom text for a custom pickup, "<preset> minutes"
      for a preset, and nothing for the other service types. */
  function TimeInfo(f: Form): (r: string)
    ensures f.serviceType != Pickup ==> r == ""
    ensures f.serviceType == Pickup && f.pickupTime == "custom" ==> r == f.customTime
    ensures f.serviceType == Pickup && f.pickupTime != "custom" ==> r == f.pickupTime + " minutes"
  {
    if f.serviceType == Pickup then
      (if f.pickupTime == "custom" then f.customTime else f.pickupTime + " minutes")
    else ""
  }

  /** A valid pickup always tells the shop when. */
  lemma ValidPickupHasTime(f: Form)
    requires IsDetailsValid(f) && f.serviceType == Pickup
    ensures TimeInfo(f) != ""
  {
    if f.pickupTime != "custom" {
      assert |TimeInfo(f)| == |f.pickupTime| + 8;
    }
  }

  const PartyPrefix := "👥 Party Size: "

  function PartySizeLine(n: int): (r: string)
    ensures |r| > |PartyPrefix| && r[..|PartyPrefix|] == PartyPrefix
  {
    PartyPrefix + IntToDecimal(n) + " person" + (if n != 1 then "s" else "")
  }

  function PreferredTimeLine(f: Form, fmt: Formats): (r: string)
    ensures f.dineInTime == "" ==> r == "🕐 Preferred Time: Not specified"
    ensures f.dineInTime != "" ==> r == "🕐 Preferred Time: " + fmt.dateTime(f.dineInTime)
  {
    "🕐 Preferred Time: " + (if f.dineInTime != "" then fmt.dateTime(f.dineInTime) else "Not specified")
  }

  /** `dineInInfo`: the party size and the preferred time on two lines, for
      dine-in only. */
  function DineInInfo(f: Form, fmt: Formats): (r: string)
    ensures f.serviceType != DineIn ==> r == ""
    ensures f.serviceType == DineIn ==> r == PartySizeLine(f.partySize) + NL + PreferredTimeLine(f, fmt)
  {
    if f.serviceType == DineIn then PartySizeLine(f.partySize) + NL + PreferredTimeLine(f, fmt) else ""
  }

  /** "person" is pluralised exactly when the party is not one person, and
      the number printed reads back as the party size. */
  lemma PartySizeWording(n: int)
    ensures PartySizeLine(n)[|PartySizeLine(n)| - 1] == 's' <==> n != 1
    ensures PartySizeLine(n)[..|PartyPrefix|] == PartyPrefix
    ensures DecimalValue(PartySizeLine(n)[|PartyPrefix|..|PartyPrefix| + |IntToDecimal(n)|]) == n
    ensures PartySizeLine(n)[|PartyPrefix| + |IntToDecimal(n)|..] == " person" + (if n != 1 then "s" else "")
  {
    var line := PartySizeLine(n);
    assert line[|PartyPrefix|..|PartyPrefix| + |IntToDecimal(n)|] == IntToDecimal(n);
    assert line[|PartyPrefix| + |IntToDecimal(n)|..] == " person" + (if n != 1 then "s" else "");
    IntToDecimalRoundTrip(n);
  }

  /** The preferred time reads "Not specified" exactly when no time was
      entered (given that the date formatter never yields that text). */
  lemma PreferredTimeWording(f: Form, fmt: Formats)
    requires f.dineInTime != "" ==> fmt.dateTime(f.dineInTime) != "Not specified"
    ensures PreferredTimeLine(f, fmt) == "🕐 Preferred Time: Not specified" <==> f.dineInTime == ""
  {
    var prefix := "🕐 Preferred Time: ";
    if f.dineInTime != "" {
      assert PreferredTimeLine(f, fmt)[|prefix|..] == fmt.dateTime(f.dineInTime);
    }
  }

  /** One cart line of the transcript. */
  function ItemLine(item: CartItem, fmt: Formats): (r: string)
    ensures |r| > 2 + |item.name| && r[..2 + |item.name|] == "• " + item.name
    ensures item.selectedVariation.Some? ==>
      var head := "• " + item.name + " (" + item.selectedVariation.value.name + ")";
      |r| > |head| && r[..|head|] == head
    ensures var tail := " x" + IntToDecimal(item.quantity) + " - ₱" + fmt.money(Cart.LineSubtotal(item));
      |r| > |tail| && r[|r| - |tail|..] == tail
  {
    var head := "• " + item.name;
    var variation := if item.selectedVariation.Some? then " (" + item.selectedVariation.value.name + ")" else "";
    var extras := if item.selectedAddOns.Some? && |item.selectedAddOns.value| > 0 then " + " + Cart.AddOnsText(item.selectedAddOns.value) else "";
    var tail := " x" + IntToDecimal(item.quantity) + " - ₱" + fmt.money(Cart.LineSubtotal(item));
    var front := head + variation + extras;
    assert (front + tail)[|front|..] == tail;
    assert (front + tail)[..|head + variation|] == head + variation;
    assert (head + variation)[..|head|] == head;
    front + tail
  }


  function ItemLines(items: seq<CartItem>, fmt: Formats): (r: seq<string>)
    ensures |r| == |items|
    ensures forall i :: 0 <= i < |items| ==> r[i] == ItemLine(items[i], fmt)
  {
    if |items| == 0 then [] else [ItemLine(items[0], fmt)] + ItemLines(items[1..], fmt)
  }

  /** The transcript line and the cart view print the same add-on text: the
      cart's "Extras" text appears after " + " in the transcript line. */
  /** Without selected add-ons (none, or an empty list), the line is the
      name, the variation if any, and the count and subtotal: no " + ". */
  lemma ItemLineWithoutExtras(item: CartItem, fmt: Formats)
    requires item.selectedAddOns.None? || item.selectedAddOns.value == []
    ensures
      var head := "• " + item.name + (if item.selectedVariation.Some? then " (" + item.selectedVariation.value.name + ")" else "");
      var tail := " x" + IntToDecimal(item.quantity) + " - ₱" + fmt.money(Cart.LineSubtotal(item));
      ItemLine(item, fmt) == head + tail
  {
  }

  lemma ItemLineSharesCartExtras(item: CartItem, fmt: Formats)
    requires Cart.ExtrasLine(item).Some?
    ensures
      var extras := Cart.ExtrasLine(item).value[8..];
      var head := "• " + item.name + (if item.selectedVariation.Some? then " (" + item.selectedVariation.value.name + ")" else "");
      var tail := " x" + IntToDecimal(item.quantity) + " - ₱" + fmt.money(Cart.LineSubtotal(item));
      ItemLine(item, fmt) == head + " + " + extras + tail
  {
    var extras := Cart.ExtrasLine(item).value[8..];
    assert extras == Cart.AddOnsText(item.selectedAddOns.value);
  }

  /** `orderDetails` as the template writes it, after `.trim()` (which only
      drops the template's opening newline and its closing indentation). The
      template's lines are grouped into the header, the three service slots,
      the item list and the footer. */
  function TranscriptAsWritten(f: Form, items: seq<CartItem>, total: int, methods: seq<PaymentMethodInfo>, fmt: Formats): string {
    HeaderText(f) + ServiceText(f, fmt)
    + NL + NL + OrderHeading + NL
    + Join(ItemLines(items, fmt), NL) + NL
    + FooterText(f, total, methods, fmt)
  }

  const OrderHeading := "📋 ORDER DETAILS:"
  const LandmarkLabel := "\U{1F5FA}\U{FE0F} Landmark: "
  // Long literals are split into short pieces so that the verifier can see
  // their characters.
  const ScreenshotLine := "📸 Payment Screenshot: " + "Please attach your payment " + "receipt screenshot"
  const ClosingLine := "Please confirm this order " + "to proceed. Thank you for " + "choosing Fifth Snack Bar! 🍟"

  function HeaderText(f: Form): string {
    "📦 FIFTH SNACK BAR ORDER" + NL
    + NL
    + "👤 Customer: " + f.customerName + NL
    + "📞 Contact: " + f.contactNumber + NL
    + "📍 Service: " + ServiceLabel(f.serviceType) + NL
  }

  function ServiceText(f: Form, fmt: Formats): string {
    (if f.serviceType == Delivery then
       "🏠 Address: " + f.address + (if f.landmark != "" then NL + LandmarkLabel + f.landmark else "")
     else "") + NL
    + (if f.serviceType == Pickup then "⏰ Pickup Time: " + TimeInfo(f) else "") + NL
    + (if f.serviceType == DineIn then DineInInfo(f, fmt) else "") + NL
  }

  function FooterText(f: Form, total: int, methods: seq<PaymentMethodInfo>, fmt: Formats): string {
    NL
    + "💰 TOTAL: ₱" + fmt.fixed2(total) + NL
    + (if f.serviceType == Delivery then "🛵 DELIVERY FEE:" else "") + NL
    + NL
    + "💳 Payment: " + PaymentName(methods, f.paymentMethod) + NL
    + ScreenshotLine + NL
    + NL
    + (if f.notes != "" then "📝 Notes: " + f.notes else "") + NL
    + NL
    + ClosingLine
  }

  // The same transcript as a table of lines.

  function HeadLines(f: Form): seq<string> {
    ["📦 FIFTH SNACK BAR ORDER", "", "👤 Customer: " + f.customerName, "📞 Contact: " + f.contactNumber,
     "📍 Service: " + ServiceLabel(f.serviceType)]
  }

  /** The three service slots: the address (and a landmark line only for a
      non-empty landmark), the pickup time, or the two dine-in lines. */
  function ServiceLines(f: Form, fmt: Formats): seq<string> {
    match f.serviceType
    case Delivery =>
      if f.landmark != "" then ["🏠 Address: " + f.address, LandmarkLabel + f.landmark, "", ""]
      else ["🏠 Address: " + f.address, "", ""]
    case Pickup => ["", "⏰ Pickup Time: " + TimeInfo(f), ""]
    case DineIn => ["", "", PartySizeLine(f.partySize), PreferredTimeLine(f, fmt)]
  }

  const MidLines := ["", "", OrderHeading]

  /** The item lines; an empty cart leaves one empty line. */
  function ItemBlock(items: seq<CartItem>, fmt: Formats): seq<string> {
    if |items| == 0 then [""] else ItemLines(items, fmt)
  }

  function NotesLine(f: Form): string {
    if f.notes != "" then "📝 Notes: " + f.notes else ""
  }

  function TailLines(f: Form, total: int, methods: seq<PaymentMethodInfo>, fmt: Formats): seq<string> {
    ["", "💰 TOTAL: ₱" + fmt.fixed2(total), if f.serviceType == Delivery then "🛵 DELIVERY FEE:" else "", "",
     "💳 Payment: " + PaymentName(methods, f.paymentMethod), ScreenshotLine, "",
     NotesLine(f), "", ClosingLine]
  }

  function TranscriptLines(f: Form, items: seq<CartItem>, total: int, methods: seq<PaymentMethodInfo>, fmt: Formats): (r: seq<string>)
    ensures |r| >= 22
    ensures r[0] == "📦 FIFTH SNACK BAR ORDER" && r[|r| - 1] == ClosingLine
  {
    HeadLines(f) + ServiceLines(f, fmt) + MidLines + ItemBlock(items, fmt) + TailLines(f, total, methods, fmt)
  }

  // Shapes of the sections, on symbolic text: each says that terminating a
  // section's lines gives the section as the template concatenates it.

  lemma TerminatedOne(x: string, s: string)
    ensures Terminated([x], s) == x + s
  {
    TerminatedSnoc([], x, s);
    assert [] + [x] == [x];
  }

  lemma TerminatedTwo(x: string, y: string, s: string)
    ensures Terminated([x, y], s) == x + s + y + s
  {
    TerminatedOne(x, s);
    TerminatedSnoc([x], y, s);
    assert [x] + [y] == [x, y];
  }

  lemma HeaderShape(h: string, c1: string, v1: string, c2: string, v2: string, c3: string, v3: string, s: string)
    ensures Terminated([h, "", c1 + v1, c2 + v2, c3 + v3], s) == h + s + s + c1 + v1 + s + c2 + v2 + s + c3 + v3 + s
  {
    var x1, x2, x3 := c1 + v1, c2 + v2, c3 + v3;
    TerminatedTwo(h, "", s);
    TerminatedTwo(x1, x2, s);
    TerminatedOne(x3, s);
    TerminatedAppend([h, ""], [x1, x2], s);
    TerminatedAppend([h, ""] + [x1, x2], [x3], s);
    assert [h, ""] + [x1, x2] + [x3] == [h, "", c1 + v1, c2 + v2, c3 + v3];
    assert Terminated([h, "", c1 + v1, c2 + v2, c3 + v3], s) == (h + s + "" + s) + (x1 + s + x2 + s) + (x3 + s);
  }

  lemma DeliveryShape(p: string, a: string, l1: string, l2: string, s: string)
    ensures Terminated([p + a, l1 + l2, "", ""], s) == p + a + (s + l1 + l2) + s + "" + s + "" + s
  {
    var x, y := p + a, l1 + l2;
    TerminatedTwo(x, y, s);
    TerminatedTwo("", "", s);
    TerminatedAppend([x, y], ["", ""], s);
    assert [x, y] + ["", ""] == [x, y, "", ""];
    assert Terminated([x, y, "", ""], s) == (x + s + y + s) + ("" + s + "" + s);
  }

  lemma DeliveryPlainShape(p: string, a: string, s: string)
    ensures Terminated([p + a, "", ""], s) == p + a + "" + s + "" + s + "" + s
  {
    var x := p + a;
    TerminatedOne(x, s);
    TerminatedTwo("", "", s);
    TerminatedAppend([x], ["", ""], s);
    assert [x] + ["", ""] == [x, "", ""];
    assert Terminated([x, "", ""], s) == (x + s) + ("" + s + "" + s);
  }

  lemma PickupShape(p: string, t: string, s: string)
    ensures Terminated(["", p + t, ""], s) == "" + s + (p + t) + s + "" + s
  {
    TerminatedSnoc([], "", s);
    assert [] + [""] == [""];
    TerminatedSnoc([""], p + t, s);
    assert [""] + [p + t] == ["", p + t];
    TerminatedSnoc(["", p + t], "", s);
    assert ["", p + t] + [""] == ["", p + t, ""];
  }

  lemma DineInShape(x: string, y: string, s: string)
    ensures Terminated(["", "", x, y], s) == "" + s + "" + s + (x + s + y) + s
  {
    TerminatedSnoc([], "", s);
    assert [] + [""] == [""];
    TerminatedSnoc([""], "", s);
    assert [""] + [""] == ["", ""];
    TerminatedSnoc(["", ""], x, s);
    assert ["", ""] + [x] == ["", "", x];
    TerminatedSnoc(["", "", x], y, s);
    assert ["", "", x] + [y] == ["", "", x, y];
  }

  lemma MidShape(h: string, s: string)
    ensures Terminated(["", "", h], s) == s + s + h + s
  {
    TerminatedSnoc([], "", s);
    assert [] + [""] == [""];
    TerminatedSnoc([""], "", s);
    assert [""] + [""] == ["", ""];
    TerminatedSnoc(["", ""], h, s);
    assert ["", ""] + [h] == ["", "", h];
  }

  lemma FooterFirstShape(t1: string, t2: string, fee: string, p1: string, p2: string, s: string)
    ensures Terminated(["", t1 + t2, fee, "", p1 + p2], s) == s + t1 + t2 + s + fee + s + s + p1 + p2 + s
  {
    var t, p := t1 + t2, p1 + p2;
    TerminatedTwo("", t, s);
    TerminatedTwo(fee, "", s);
    TerminatedOne(p, s);
    TerminatedAppend(["", t], [fee, ""], s);
    TerminatedAppend(["", t] + [fee, ""], [p], s);
    assert ["", t] + [fee, ""] + [p] == ["", t1 + t2, fee, "", p1 + p2];
    assert Terminated(["", t1 + t2, fee, "", p1 + p2], s) == ("" + s + t + s) + (fee + s + "" + s) + (p + s);
  }

  lemma FooterSecondShape(shot: string, notes: string, s: string)
    ensures Terminated([shot, "", notes, ""], s) == shot + s + s + notes + s + s
  {
    TerminatedSnoc([], shot, s);
    assert [] + [shot] == [shot];
    TerminatedSnoc([shot], "", s);
    assert [shot] + [""] == [shot, ""];
    TerminatedSnoc([shot, ""], notes, s);
    assert [shot, ""] + [notes] == [shot, "", notes];
    TerminatedSnoc([shot, "", notes], "", s);
    assert [shot, "", notes] + [""] == [shot, "", notes, ""];
  }

  lemma FooterShape(t1: string, t2: string, fee: string, p1: string, p2: string, shot: string, notes: string, closing: string, s: string)
    ensures Join(["", t1 + t2, fee, "", p1 + p2, shot, "", notes, "", closing], s)
      == s + t1 + t2 + s + fee + s + s + p1 + p2 + s + shot + s + s + notes + s + s + closing
  {
    var a, b := ["", t1 + t2, fee, "", p1 + p2], [shot, "", notes, ""];
    assert ["", t1 + t2, fee, "", p1 + p2, shot, "", notes, "", closing] == (a + b) + [closing];
    JoinIsTerminated(a + b, closing, s);
    TerminatedAppend(a, b, s);
    FooterFirstShape(t1, t2, fee, p1, p2, s);
    FooterSecondShape(shot, notes, s);
  }

  lemma AssembleShape(ht: string, st: string, h: string, j: string, ft: string, s: string)
    ensures ht + st + (s + s + h + s) + (j + s) + ft == ht + st + s + s + h + s + j + s + ft
  {
  }

  lemma HeaderLines(f: Form)
    ensures Terminated(HeadLines(f), NL) == HeaderText(f)
  {
    HeaderShape("📦 FIFTH SNACK BAR ORDER", "👤 Customer: ", f.customerName, "📞 Contact: ", f.contactNumber,
      "📍 Service: ", ServiceLabel(f.serviceType), NL);
  }

  lemma ServiceSlots(f: Form, fmt: Formats)
    ensures Terminated(ServiceLines(f, fmt), NL) == ServiceText(f, fmt)
  {
    match f.serviceType
    case Delivery =>
      DeliveryShape("🏠 Address: ", f.address, LandmarkLabel, f.landmark, NL);
      DeliveryPlainShape("🏠 Address: ", f.address, NL);
    case Pickup => PickupShape("⏰ Pickup Time: ", TimeInfo(f), NL);
    case DineIn => DineInShape(PartySizeLine(f.partySize), PreferredTimeLine(f, fmt), NL);
  }

  lemma FooterLines(f: Form, total: int, methods: seq<PaymentMethodInfo>, fmt: Formats)
    ensures Join(TailLines(f, total, methods, fmt), NL) == FooterText(f, total, methods, fmt)
  {
    FooterShape("💰 TOTAL: ₱", fmt.fixed2(total), if f.serviceType == Delivery then "🛵 DELIVERY FEE:" else "",
      "💳 Payment: ", PaymentName(methods, f.paymentMethod), ScreenshotLine, NotesLine(f), ClosingLine, NL);
  }

  /** The template and the line table are the same text: the transcript is
      its lines joined by newlines. */
  lemma TranscriptIsLines(f: Form, items: seq<CartItem>, total: int, methods: seq<PaymentMethodInfo>, fmt: Formats)
    ensures TranscriptAsWritten(f, items, total, methods, fmt) == Join(TranscriptLines(f, items, total, methods, fmt), NL)
  {
    var head, service := HeadLines(f), ServiceLines(f, fmt);
    var block, tail := ItemBlock(items, fmt), TailLines(f, total, methods, fmt);
    var front := head + service + MidLines + block;
    JoinAppend(front, tail, NL);
    TerminatedIsJoin(front, NL);
    TerminatedAppend(head + service + MidLines, block, NL);
    TerminatedAppend(head + service, MidLines, NL);
    TerminatedAppend(head, service, NL);
    TerminatedIsJoin(block, NL);
    assert Join(block, NL) == Join(ItemLines(items, fmt), NL);
    HeaderLines(f);
    ServiceSlots(f, fmt);
    MidShape(OrderHeading, NL);
    FooterLines(f, total, methods, fmt);
    AssembleShape(HeaderText(f), ServiceText(f, fmt), OrderHeading, Join(ItemLines(items, fmt), NL),
      FooterText(f, total, methods, fmt), NL);
  }

  // ---------------------------------------------------------------------------
  // What the lines say
  // ---------------------------------------------------------------------------

  const Bullet: char := '•'
  const LandmarkMarker: char := '\U{1F5FA}'
  const NotesMarker: char := '📝'
  const PaymentMarker: char := '💳'

  /** The lines of a transcript, read by the first character of each. */
  lemma {:induction false} SectionsStarting(a: seq<string>, b: seq<string>, m: seq<string>, block: seq<string>, tail: seq<string>, c: char)
    ensures StartingWith(a + b + m + block + tail, c)
         == StartingWith(a, c) + StartingWith(b, c) + StartingWith(m, c) + StartingWith(block, c) + StartingWith(tail, c)
  {
    StartingWithAppend(a + b + m + block, tail, c);
    StartingWithAppend(a + b + m, block, c);
    StartingWithAppend(a + b, m, c);
    StartingWithAppend(a, b, c);
  }

  lemma FromServiceOnly(a: seq<string>, b: seq<string>, m: seq<string>, block: seq<string>, tail: seq<string>, c: char)
    requires StartingWith(a, c) == [] && StartingWith(m, c) == []
    requires StartingWith(block, c) == [] && StartingWith(tail, c) == []
    ensures StartingWith(a + b + m + block + tail, c) == StartingWith(b, c)
  {
    SectionsStarting(a, b, m, block, tail, c);
    var found := StartingWith(b, c);
    assert [] + found + [] + [] + [] == found;
  }

  lemma FromBlockOnly(a: seq<string>, b: seq<string>, m: seq<string>, block: seq<string>, tail: seq<string>, c: char)
    requires StartingWith(a, c) == [] && StartingWith(b, c) == []
    requires StartingWith(m, c) == [] && StartingWith(tail, c) == []
    ensures StartingWith(a + b + m + block + tail, c) == StartingWith(block, c)
  {
    SectionsStarting(a, b, m, block, tail, c);
    var found := StartingWith(block, c);
    assert [] + [] + [] + found + [] == found;
  }

  lemma FromTailOnly(a: seq<string>, b: seq<string>, m: seq<string>, block: seq<string>, tail: seq<string>, c: char)
    requires StartingWith(a, c) == [] && StartingWith(b, c) == []
    requires StartingWith(m, c) == [] && StartingWith(block, c) == []
    ensures StartingWith(a + b + m + block + tail, c) == StartingWith(tail, c)
  {
    SectionsStarting(a, b, m, block, tail, c);
    var found := StartingWith(tail, c);
    assert [] + [] + [] + [] + found == found;
  }

  lemma HeadLeads(f: Form, c: char)
    requires c !in {'📦', '👤', '📞', '📍'}
    ensures StartingWith(HeadLines(f), c) == []
  {
    var h := HeadLines(f);
    forall i | 0 <= i < |h| ensures !StartsWith(h[i], c) {
    }
    StartingWithNone(h, c);
  }

  lemma ServiceLeads(f: Form, fmt: Formats, c: char)
    requires c !in {'🏠', LandmarkMarker, '⏰', '👥', '🕐'}
    ensures StartingWith(ServiceLines(f, fmt), c) == []
  {
    var s := ServiceLines(f, fmt);
    forall i | 0 <= i < |s| ensures !StartsWith(s[i], c) {
    }
    StartingWithNone(s, c);
  }

  /** Only a delivery with a landmark has a landmark line. */
  lemma ServiceLandmark(f: Form, fmt: Formats)
    ensures StartingWith(ServiceLines(f, fmt), LandmarkMarker)
         == if f.serviceType == Delivery && f.landmark != "" then [LandmarkLabel + f.landmark] else []
  {
    var s := ServiceLines(f, fmt);
    if f.serviceType == Delivery && f.landmark != "" {
      StartingWithOne(s, 1, LandmarkMarker);
    } else {
      forall i | 0 <= i < |s| ensures !StartsWith(s[i], LandmarkMarker) {
      }
      StartingWithNone(s, LandmarkMarker);
    }
  }

  lemma MidLeads(c: char)
    requires c != '📋'
    ensures StartingWith(MidLines, c) == []
  {
    StartingWithNone(MidLines, c);
  }

  lemma ItemBlockLeads(items: seq<CartItem>, fmt: Formats, c: char)
    ensures StartingWith(ItemBlock(items, fmt), c) == if c == Bullet then ItemLines(items, fmt) else []
  {
    var block := ItemBlock(items, fmt);
    if |items| == 0 {
      StartingWithNone(block, c);
    } else if c == Bullet {
      forall i | 0 <= i < |block| ensures StartsWith(block[i], c) {
        assert block[i] == ItemLine(items[i], fmt);
      }
      StartingWithAll(block, c);
    } else {
      forall i | 0 <= i < |block| ensures !StartsWith(block[i], c) {
        assert block[i] == ItemLine(items[i], fmt);
      }
      StartingWithNone(block, c);
    }
  }

  lemma TailLeads(f: Form, total: int, methods: seq<PaymentMethodInfo>, fmt: Formats, c: char)
    requires c !in {'💰', '🛵', '💳', '📸', '📝', 'P'}
    ensures StartingWith(TailLines(f, total, methods, fmt), c) == []
  {
    var tail := TailLines(f, total, methods, fmt);
    forall i | 0 <= i < |tail| ensures !StartsWith(tail[i], c) {
      assert !StartsWith(tail[5], c);
      assert !StartsWith(tail[9], c);
    }
    StartingWithNone(tail, c);
  }

  lemma TailNotes(f: Form, total: int, methods: seq<PaymentMethodInfo>, fmt: Formats)
    ensures StartingWith(TailLines(f, total, methods, fmt), NotesMarker)
         == if f.notes != "" then ["📝 Notes: " + f.notes] else []
  {
    var tail := TailLines(f, total, methods, fmt);
    forall i | 0 <= i < |tail| && i != 7 ensures !StartsWith(tail[i], NotesMarker) {
      assert !StartsWith(tail[5], NotesMarker);
      assert !StartsWith(tail[9], NotesMarker);
    }
    if f.notes != "" {
      StartingWithOne(tail, 7, NotesMarker);
    } else {
      StartingWithNone(tail, NotesMarker);
    }
  }

  lemma TailPayment(f: Form, total: int, methods: seq<PaymentMethodInfo>, fmt: Formats)
    ensures StartingWith(TailLines(f, total, methods, fmt), PaymentMarker)
         == ["💳 Payment: " + PaymentName(methods, f.paymentMethod)]
  {
    var tail := TailLines(f, total, methods, fmt);
    forall i | 0 <= i < |tail| && i != 4 ensures !StartsWith(tail[i], PaymentMarker) {
      assert !StartsWith(tail[5], PaymentMarker);
      assert !StartsWith(tail[9], PaymentMarker);
    }
    StartingWithOne(tail, 4, PaymentMarker);
  }

  /** The bulleted lines of the transcript are exactly one line per cart
      item, in cart order. */
  lemma ItemLinesInCartOrder(f: Form, items: seq<CartItem>, total: int, methods: seq<PaymentMethodInfo>, fmt: Formats)
    ensures StartingWith(TranscriptLines(f, items, total, methods, fmt), Bullet) == ItemLines(items, fmt)
  {
    HeadLeads(f, Bullet);
    ServiceLeads(f, fmt, Bullet);
    MidLeads(Bullet);
    ItemBlockLeads(items, fmt, Bullet);
    TailLeads(f, total, methods, fmt, Bullet);
    FromBlockOnly(HeadLines(f), ServiceLines(f, fmt), MidLines, ItemBlock(items, fmt), TailLines(f, total, methods, fmt), Bullet);
  }

  /** The landmark line is there exactly for a delivery with a landmark. */
  lemma LandmarkLineOnlyForDelivery(f: Form, items: seq<CartItem>, total: int, methods: seq<PaymentMethodInfo>, fmt: Formats)
    ensures StartingWith(TranscriptLines(f, items, total, methods, fmt), LandmarkMarker)
         == if f.serviceType == Delivery && f.landmark != "" then [LandmarkLabel + f.landmark] else []
  {
    HeadLeads(f, LandmarkMarker);
    ServiceLandmark(f, fmt);
    MidLeads(LandmarkMarker);
    ItemBlockLeads(items, fmt, LandmarkMarker);
    TailLeads(f, total, methods, fmt, LandmarkMarker);
    FromServiceOnly(HeadLines(f), ServiceLines(f, fmt), MidLines, ItemBlock(items, fmt), TailLines(f, total, methods, fmt), LandmarkMarker);
  }

  /** The notes line is there exactly when notes were written. */
  lemma NotesLineOnlyWithNotes(f: Form, items: seq<CartItem>, total: int, methods: seq<PaymentMethodInfo>, fmt: Formats)
    ensures StartingWith(TranscriptLines(f, items, total, methods, fmt), NotesMarker)
         == if f.notes != "" then ["📝 Notes: " + f.notes] else []
  {
    HeadLeads(f, NotesMarker);
    ServiceLeads(f, fmt, NotesMarker);
    MidLeads(NotesMarker);
    ItemBlockLeads(items, fmt, NotesMarker);
    TailNotes(f, total, methods, fmt);
    FromTailOnly(HeadLines(f), ServiceLines(f, fmt), MidLines, ItemBlock(items, fmt), TailLines(f, total, methods, fmt), NotesMarker);
  }

  /** Exactly one payment line, naming the chosen method. */
  lemma OnePaymentLine(f: Form, items: seq<CartItem>, total: int, methods: seq<PaymentMethodInfo>, fmt: Formats)
    ensures StartingWith(TranscriptLines(f, items, total, methods, fmt), PaymentMarker)
         == ["💳 Payment: " + PaymentName(methods, f.paymentMethod)]
  {
    HeadLeads(f, PaymentMarker);
    ServiceLeads(f, fmt, PaymentMarker);
    MidLeads(PaymentMarker);
    ItemBlockLeads(items, fmt, PaymentMarker);
    TailPayment(f, total, methods, fmt);
    FromTailOnly(HeadLines(f), ServiceLines(f, fmt), MidLines, ItemBlock(items, fmt), TailLines(f, total, methods, fmt), PaymentMarker);
  }

  // ---------------------------------------------------------------------------
  // Reading the transcript back line by line
  // ---------------------------------------------------------------------------

  predicate OneLine(s: string) {
    '\n' !in s
  }

  /** Everything a cart line prints from the cart fits on one line. */
  predicate ItemOnOneLine(item: CartItem, fmt: Formats) {
    && OneLine(item.name)
    && (item.selectedVariation.Some? ==> OneLine(item.selectedVariation.value.name))
    && (item.selectedAddOns.Some? ==> forall a :: a in item.selectedAddOns.value ==> OneLine(a.name))
    && OneLine(fmt.money(Cart.LineSubtotal(item)))
  }

  /** Every text the transcript takes from the customer, the cart, the
      payment methods and the formatters fits on one line. */
  predicate SingleLineInputs(f: Form, items: seq<CartItem>, total: int, methods: seq<PaymentMethodInfo>, fmt: Formats) {
    && OneLine(f.customerName) && OneLine(f.contactNumber)
    && OneLine(f.address) && OneLine(f.landmark)
    && OneLine(f.pickupTime) && OneLine(f.customTime)
    && (f.dineInTime != "" ==> OneLine(fmt.dateTime(f.dineInTime)))
    && OneLine(f.notes)
    && OneLine(fmt.fixed2(total)) && OneLine(PaymentName(methods, f.paymentMethod))
    && forall item :: item in items ==> ItemOnOneLine(item, fmt)
  }

  lemma AddOnsTextOneLine(s: seq<AddOn>)
    requires forall a :: a in s ==> OneLine(a.name)
    ensures OneLine(Cart.AddOnsText(s))
  {
    var labels := Cart.Labels(s);
    forall i | 0 <= i < |labels| ensures '\n' !in labels[i] {
      assert s[i] in s;
      LabelOneLine(s[i]);
    }
    PlainText(", ");
    JoinAvoids(labels, ", ", '\n');
  }

  lemma LabelOneLine(a: AddOn)
    requires OneLine(a.name)
    ensures OneLine(Cart.AddOnLabel(a))
  {
    if a.quantity.Some? && a.quantity.value > 1 {
      DecimalHasNoNewline(a.quantity.value);
      PlainText(" x");
    }
  }

  lemma ItemLineOneLine(item: CartItem, fmt: Formats)
    requires ItemOnOneLine(item, fmt)
    ensures OneLine(ItemLine(item, fmt))
  {
    if item.selectedAddOns.Some? {
      AddOnsTextOneLine(item.selectedAddOns.value);
      PlainText(" + ");
    }
    if item.selectedVariation.Some? {
      PlainText(" (");
      PlainText(")");
    }
    PlainText("• ");
    PlainText(" x");
    PlainText(" - ₱");
    DecimalHasNoNewline(item.quantity);
  }

  predicate AllOneLine(lines: seq<string>) {
    forall i :: 0 <= i < |lines| ==> OneLine(lines[i])
  }

  lemma {:induction false} SectionsOneLine(a: seq<string>, b: seq<string>, m: seq<string>, block: seq<string>, tail: seq<string>)
    requires AllOneLine(a) && AllOneLine(b) && AllOneLine(m) && AllOneLine(block) && AllOneLine(tail)
    ensures AllOneLine(a + b + m + block + tail)
  {
    var all := a + b + m + block + tail;
    forall i | 0 <= i < |all| ensures OneLine(all[i]) {
      if i < |a| { assert all[i] == a[i]; }
      else if i < |a| + |b| { assert all[i] == b[i - |a|]; }
      else if i < |a| + |b| + |m| { assert all[i] == m[i - |a| - |b|]; }
      else if i < |a| + |b| + |m| + |block| { assert all[i] == block[i - |a| - |b| - |m|]; }
      else { assert all[i] == tail[i - |a| - |b| - |m| - |block|]; }
    }
  }

  /** A text none of whose characters is a newline is on one line. */
  lemma PlainText(s: string)
    requires forall i :: 0 <= i < |s| ==> s[i] != '\n'
    ensures OneLine(s)
  {
  }

  /** A one-line prefix followed by one line of text is one line. */
  lemma Prefixed(p: string, v: string)
    requires forall i :: 0 <= i < |p| ==> p[i] != '\n'
    requires OneLine(v)
    ensures OneLine(p + v)
  {
    PlainText(p);
  }

  lemma ServiceLabelOneLine(t: ServiceType)
    ensures OneLine(ServiceLabel(t))
  {
    match t
    case DineIn => PlainText("Dine-in");
    case Pickup => PlainText("Pickup");
    case Delivery => PlainText("Delivery");
  }

  lemma HeadOneLine(f: Form)
    requires OneLine(f.customerName) && OneLine(f.contactNumber)
    ensures AllOneLine(HeadLines(f))
  {
    PlainText("📦 FIFTH SNACK BAR ORDER");
    PlainText("");
    Prefixed("👤 Customer: ", f.customerName);
    Prefixed("📞 Contact: ", f.contactNumber);
    ServiceLabelOneLine(f.serviceType);
    Prefixed("📍 Service: ", ServiceLabel(f.serviceType));
  }

  lemma ServiceOneLine(f: Form, fmt: Formats)
    requires OneLine(f.address) && OneLine(f.landmark) && OneLine(f.pickupTime) && OneLine(f.customTime)
    requires f.dineInTime != "" ==> OneLine(fmt.dateTime(f.dineInTime))
    ensures AllOneLine(ServiceLines(f, fmt))
  {
    var lines := ServiceLines(f, fmt);
    match f.serviceType
    case Delivery =>
      PlainText("🏠 Address: ");
      assert OneLine(LandmarkLabel);
    case Pickup =>
      PlainText("⏰ Pickup Time: ");
      PlainText(" minutes");
    case DineIn =>
      PartySizeOneLine(f.partySize);
      PlainText("🕐 Preferred Time: ");
      PlainText("Not specified");
  }

  lemma PartySizeOneLine(n: int)
    ensures OneLine(PartySizeLine(n))
  {
    DecimalHasNoNewline(n);
    assert OneLine(PartyPrefix);
    PlainText(" person");
  }

  lemma ItemBlockOneLine(items: seq<CartItem>, fmt: Formats)
    requires forall item :: item in items ==> ItemOnOneLine(item, fmt)
    ensures AllOneLine(ItemBlock(items, fmt))
  {
    var block := ItemBlock(items, fmt);
    forall i | 0 <= i < |block| ensures OneLine(block[i]) {
      if |items| > 0 {
        assert items[i] in items;
        ItemLineOneLine(items[i], fmt);
      }
    }
  }

  lemma FixedLinesOneLine()
    ensures OneLine(ScreenshotLine) && OneLine(ClosingLine)
  {
    ScreenshotOneLine();
    ClosingOneLine();
  }

  lemma ScreenshotOneLine()
    ensures OneLine(ScreenshotLine)
  {
    PlainText("📸 Payment Screenshot: ");
    PlainText("Please attach your payment ");
    PlainText("receipt screenshot");
  }

  lemma ClosingOneLine()
    ensures OneLine(ClosingLine)
  {
    PlainText("Please confirm this order ");
    PlainText("to proceed. Thank you for ");
    PlainText("choosing Fifth Snack Bar! 🍟");
  }

  lemma TailOneLine(f: Form, total: int, methods: seq<PaymentMethodInfo>, fmt: Formats)
    requires OneLine(f.notes) && OneLine(fmt.fixed2(total)) && OneLine(PaymentName(methods, f.paymentMethod))
    ensures AllOneLine(TailLines(f, total, methods, fmt))
  {
    var tail := TailLines(f, total, methods, fmt);
    TotalLineOneLine(total, fmt);
    DeliveryFeeOneLine(f);
    PaymentLineOneLine(PaymentName(methods, f.paymentMethod));
    NotesLineOneLine(f);
    FixedLinesOneLine();
    assert OneLine("");
    forall i | 0 <= i < |tail| ensures OneLine(tail[i]) {
    }
  }

  lemma TotalLineOneLine(total: int, fmt: Formats)
    requires OneLine(fmt.fixed2(total))
    ensures OneLine("💰 TOTAL: ₱" + fmt.fixed2(total))
  {
    PlainText("💰 TOTAL: ₱");
  }

  lemma DeliveryFeeOneLine(f: Form)
    ensures OneLine(if f.serviceType == Delivery then "🛵 DELIVERY FEE:" else "")
  {
    PlainText("🛵 DELIVERY FEE:");
  }

  lemma PaymentLineOneLine(name: string)
    requires OneLine(name)
    ensures OneLine("💳 Payment: " + name)
  {
    PlainText("💳 Payment: ");
  }

  lemma NotesLineOneLine(f: Form)
    requires OneLine(f.notes)
    ensures OneLine(NotesLine(f))
  {
    PlainText("📝 Notes: ");
  }

  lemma MidOneLine()
    ensures AllOneLine(MidLines)
  {
    assert OneLine(OrderHeading);
  }

  lemma LinesAreSingle(f: Form, items: seq<CartItem>, total: int, methods: seq<PaymentMethodInfo>, fmt: Formats)
    requires SingleLineInputs(f, items, total, methods, fmt)
    ensures AllOneLine(TranscriptLines(f, items, total, methods, fmt))
  {
    var head, service := HeadLines(f), ServiceLines(f, fmt);
    var block, tail := ItemBlock(items, fmt), TailLines(f, total, methods, fmt);
    HeadOneLine(f);
    ServiceOneLine(f, fmt);
    MidOneLine();
    ItemBlockOneLine(items, fmt);
    TailOneLine(f, total, methods, fmt);
    SectionsOneLine(head, service, MidLines, block, tail);
  }

  /** Splitting the transcript at its newlines gives back the line table,
      as long as no input brings a newline of its own. */
  lemma TranscriptSplitsIntoLines(f: Form, items: seq<CartItem>, total: int, methods: seq<PaymentMethodInfo>, fmt: Formats)
    requires SingleLineInputs(f, items, total, methods, fmt)
    ensures Split(TranscriptAsWritten(f, items, total, methods, fmt), '\n') == TranscriptLines(f, items, total, methods, fmt)
  {
    var lines := TranscriptLines(f, items, total, methods, fmt);
    LinesAreSingle(f, items, total, methods, fmt);
    TranscriptIsLines(f, items, total, methods, fmt);
    assert NL == ['\n'];
    SplitJoin(lines, '\n');
  }

  /** What a reader of the sent message finds, line by line: one bulleted
      line per cart item in cart order, a landmark line only for a delivery
      with a landmark, a notes line only with notes, and exactly one payment
      line naming the chosen method. */
  lemma TranscriptReadsBack(f: Form, items: seq<CartItem>, total: int, methods: seq<PaymentMethodInfo>, fmt: Formats)
    requires SingleLineInputs(f, items, total, methods, fmt)
    ensures var lines := Split(TranscriptAsWritten(f, items, total, methods, fmt), '\n');
      && StartingWith(lines, Bullet) == ItemLines(items, fmt)
      && StartingWith(lines, LandmarkMarker)
         == (if f.serviceType == Delivery && f.landmark != "" then [LandmarkLabel + f.landmark] else [])
      && StartingWith(lines, NotesMarker) == (if f.notes != "" then ["📝 Notes: " + f.notes] else [])
      && StartingWith(lines, PaymentMarker) == ["💳 Payment: " + PaymentName(methods, f.paymentMethod)]
  {
    TranscriptSplitsIntoLines(f, items, total, methods, fmt);
    ItemLinesInCartOrder(f, items, total, methods, fmt);
    LandmarkLineOnlyForDelivery(f, items, total, methods, fmt);
    NotesLineOnlyWithNotes(f, items, total, methods, fmt);
    OnePaymentLine(f, items, total, methods, fmt);
  }
}
