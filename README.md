# Fifth Snack Bar storefront: a verified model of its ordering logic

The Fifth Snack Bar storefront is a React single-page shop. Its ordering
logic lives inside three view components, and this Dafny project models it:

- **The menu item card** (`src/components/MenuItemCard.tsx`). This covers the
  unit price of a customised item, the draft list of selected add-ons and
  its `+`/`-` edits, and the cart line each "add" handler builds. It also
  covers the card's quantity stepper requests and the grouping of add-ons
  by category. The card's state becomes the class `MenuItemCard.Card`.
  `calculatePrice` and the grouping are loops over that state, proved
  against the functions `UnitPrice` and `Grouped`.
- **The checkout** (`src/components/Checkout.tsx`). This covers the
  details-form validity rule and the two-step details/payment sequence.
  It also covers the party-size stepper clamped to [1, 20], the
  default-payment effect, and the order transcript sent to the messaging
  app. The component's state becomes the class `CheckoutPage.CheckoutFlow`.
  The transcript is modelled twice:
  - as the template writes it (`Checkout.TranscriptAsWritten`);
  - as a table of lines (`Checkout.TranscriptLines`).

  The two are proved equal. With inputs that carry no newline, splitting
  the message at its newlines gives the table back. That yields the
  line-level facts: one bullet line per cart item in cart order, a landmark
  line only for a delivery with a landmark, a notes line only with notes,
  and exactly one payment line.
- **The cart view** (`src/components/Cart.tsx`). This covers the
  empty-cart branch, the add-on labels (the same definition the transcript
  uses), the line subtotal, and the requests the view's buttons emit.

Modelling conventions:

- Prices are integers in the smallest currency unit.
- JavaScript "falsy" fallbacks are modelled with `Option`:
  - `effectivePrice || basePrice` treats a missing or zero effective price
    as absent;
  - `quantity || 1` treats a missing or zero quantity as 1;
  - `category || 'Extras'` treats a missing or empty category as `Extras`.
- Quantities and the party size are printed with a decimal formatter, and
  that formatter is proved to read back.
- Money formatting, `toFixed(2)` and date formatting are uninterpreted
  functions, passed in as `Checkout.Formats`.

Pricing follows the code: the amount put in the cart uses
`effectivePrice || basePrice` (MenuItemCard.tsx line 41). The discount
fields `isOnDiscount` and `discountPrice` choose only the price the card
displays (MenuItemCard.tsx lines 179-192): the discount price, with the base
price struck through. They never enter the line's `totalPrice`.

Files:
- `wrappers.dfy`: `Option`.
- `text.dfy`:
  - join, split and filter-by-first-character on lines;
  - the decimal formatter;
  - capitalisation.
- `catalog.dfy`: menu items, variations, add-ons, cart lines.
- `menu_item_card.dfy`: the card.
- `cart.dfy`: the cart view.
- `checkout.dfy`: validity, stepper bounds, payment defaults, the transcript.
- `checkout_page.dfy`: the checkout component's state machine.

## Model

| member | source | states |
|---|---|---|
| MenuItemCard.BasePrice | src/components/MenuItemCard.tsx:41 | the effective price when it is set and non-zero, otherwise the base price |
| MenuItemCard.Units | src/components/MenuItemCard.tsx:46 | an add-on counts its quantity when set and non-zero, and exactly 1 when the quantity is missing or zero |
| MenuItemCard.UnitPrice | src/components/MenuItemCard.tsx:40-49 | the unit price less the add-on total is the base price plus the variation's delta, and with nothing chosen it is the effective price when set, otherwise the base price |
| MenuItemCard.AddOnsTotalAppend | src/components/MenuItemCard.tsx:45-47 | the add-on charge of two selections together is the sum of their charges |
| MenuItemCard.AddOnsTotalNonNegative | src/components/MenuItemCard.tsx:45-47 | with non-negative prices and quantities of at least 1, the add-on charge is non-negative |
| MenuItemCard.UnitPriceAtLeastBase | src/components/MenuItemCard.tsx:40-49 | with non-negative variation and add-on prices, the unit price is at least the base price, and equals it when nothing is selected |
| MenuItemCard.FriesScenario | src/components/MenuItemCard.tsx:40-49 | a worked price: base 5000 plus a 2000 variation plus one 1000 add-on taken twice is 9000 |
| MenuItemCard.Card.CalculatePrice | src/components/MenuItemCard.tsx:40-49 | the loop returns the base price plus the selected variation's price plus each add-on's price times its units |
| MenuItemCard.WithoutAddOn | src/components/MenuItemCard.tsx:77 | an add-on is in the filtered list exactly when it is in the selection and does not carry the removed id |
| MenuItemCard.WithoutAddOnAppend | src/components/MenuItemCard.tsx:77 | the filter keeps order: filtering a concatenation filters each part and concatenates the results |
| MenuItemCard.WithQuantity | src/components/MenuItemCard.tsx:81-83 | position by position, an entry with the id gets the new quantity and every other entry is unchanged |
| MenuItemCard.UpdatedAddOns | src/components/MenuItemCard.tsx:75-88 | after `updateAddOnQuantity` the add-on is absent when the new quantity is 0 or less, and present with exactly that quantity otherwise |
| MenuItemCard.WithoutAt | src/components/MenuItemCard.tsx:77 | with unique ids, removing the id at position k leaves the other entries in order |
| MenuItemCard.WithQuantityAt | src/components/MenuItemCard.tsx:81-83 | with unique ids, only the entry at position k gets the new quantity |
| MenuItemCard.RemoveAddOnSpec | src/components/MenuItemCard.tsx:76-77 | a quantity of 0 or less removes exactly the entry with that id and keeps the rest in order; an absent id changes nothing |
| MenuItemCard.ReplaceAddOnSpec | src/components/MenuItemCard.tsx:79-83 | a positive quantity for an existing id replaces only that entry's quantity |
| MenuItemCard.AppendAddOnSpec | src/components/MenuItemCard.tsx:84-85 | a positive quantity for a new id appends the add-on with that quantity at the end |
| MenuItemCard.UpdatePreservesWellFormed | src/components/MenuItemCard.tsx:75-88 | every update keeps ids unique and every quantity at least 1 |
| MenuItemCard.UpdatesKeepWellFormed | src/components/MenuItemCard.tsx:24 | from the empty selection, any sequence of updates keeps ids unique and quantities at least 1 |
| MenuItemCard.UpdateChangesTotal | src/components/MenuItemCard.tsx:75-88 | each kind of update changes the add-on charge by exactly the removed, replaced or appended entry's charge |
| MenuItemCard.Card.UpdateAddOnQuantity | src/components/MenuItemCard.tsx:75-88 | the draft selection becomes the updated list, and the selection stays well formed |
| MenuItemCard.Card.AddAddOn | src/components/MenuItemCard.tsx:341 | the "add" button selects the add-on with quantity 1 |
| MenuItemCard.Card.IncrementAddOn | src/components/MenuItemCard.tsx:329-331 | the "+" button sets the current quantity (0 when unselected) plus one |
| MenuItemCard.Card.DecrementAddOn | src/components/MenuItemCard.tsx:316-318 | the "-" button sets the current quantity (1 when unselected) minus one, removing the entry at zero |
| MenuItemCard.SelectedUnits | src/components/MenuItemCard.tsx:316-331 | the quantity the add-on's stepper reads: an id not selected gives the fallback, and any other value is the quantity of a selected entry with that id |
| MenuItemCard.StepperOnSelectedAddOn | src/components/MenuItemCard.tsx:316-331 | on a selected add-on, "-" from 1 removes it and "+" raises its quantity by one in place |
| MenuItemCard.CategoryOf | src/components/MenuItemCard.tsx:92 | the group key is the category when non-empty, otherwise "Extras", and never empty |
| MenuItemCard.GroupedIsPartition | src/components/MenuItemCard.tsx:91-96 | the group keys are exactly the add-ons' categories, and each group is the add-ons of that category in input order |
| MenuItemCard.InCategoryMembers | src/components/MenuItemCard.tsx:93-94 | a group holds exactly the add-ons with that key |
| MenuItemCard.EachAddOnInItsGroup | src/components/MenuItemCard.tsx:91-96 | every add-on is in the group of its own key, and only there |
| MenuItemCard.Grouped | src/components/MenuItemCard.tsx:91-96 | every key of the reduce's dictionary is a non-empty category, and its group is non-empty |
| MenuItemCard.Card.GroupAddOns | src/components/MenuItemCard.tsx:91-96 | the accumulating loop, which starts a category's array on first use and then appends, builds exactly `Grouped` of the item's add-ons |
| MenuItemCard.InitialVariation | src/components/MenuItemCard.tsx:21-23 | the first variation is preselected exactly when the item has variations |
| MenuItemCard.Card.constructor | src/components/MenuItemCard.tsx:20-24 | the customiser is closed, the first variation is selected and no add-on is selected |
| MenuItemCard.PlainLine | src/components/MenuItemCard.tsx:32-36 | a direct add is quantity 1, no choices, priced at the base price |
| MenuItemCard.Card.HandleAddToCart | src/components/MenuItemCard.tsx:28-38 | a line is added exactly when the item has no variations and no add-ons, and it is then the plain line; otherwise the customiser opens and nothing is added |
| MenuItemCard.CustomizedLine | src/components/MenuItemCard.tsx:52-58 | a customised line has quantity 1, the chosen variation, add-ons only when some are chosen, and the computed unit price |
| MenuItemCard.Card.HandleCustomizedAddToCart | src/components/MenuItemCard.tsx:51-61 | the line is built from the draft choices, then the customiser closes and the draft add-ons are cleared |
| MenuItemCard.CustomizedWithoutChoicesIsPlain | src/components/MenuItemCard.tsx:28-61 | a customised add with no choices gives the same line as a direct add |
| MenuItemCard.Card.CloseCustomization | src/components/MenuItemCard.tsx:249 | the close button hides the customiser and changes nothing else |
| MenuItemCard.Card.SelectVariation | src/components/MenuItemCard.tsx:275 | picking a variation selects it and changes nothing else |
| MenuItemCard.CardQuantity | src/components/MenuItemCard.tsx:26 | the card shows the cart line's quantity, or 0 without a line |
| MenuItemCard.IncrementRequest | src/components/MenuItemCard.tsx:63-67 | "+" asks for the line's quantity plus one, only when there is a line and an updater |
| MenuItemCard.DecrementRequest | src/components/MenuItemCard.tsx:69-73 | "-" asks for the line's quantity minus one, never below 0 |
| MenuItemCard.NeedsCustomization | src/components/MenuItemCard.tsx:29 | an item is customised exactly when a variation is preselected for it (it has variations) or it has add-ons |
| MenuItemCard.Control | src/components/MenuItemCard.tsx:197-224 | an unavailable item shows "Sold Out"; otherwise a zero count shows the order button ("Options" exactly when customisable), and a non-zero count shows the stepper |
| Cart.AddOnLabel | src/components/Cart.tsx:75-78 | a label always starts with the add-on's name |
| Cart.AddOnLabelRule | src/components/Cart.tsx:75-79 | a label differs from the bare name exactly when the quantity is above 1, and its " x" suffix reads back as the quantity |
| Cart.Labels | src/components/Cart.tsx:75-79 | one label per selected add-on, in selection order |
| Cart.AddOnsText | src/components/Cart.tsx:74-79 | no add-ons give empty text, one add-on gives its label alone, and the first label always leads |
| Cart.AddOnsTextAppend | src/components/Cart.tsx:74-79 | labels follow selection order, joined by ", ": the text of two non-empty selections together is the first's text, ", ", then the second's text |
| Cart.LineSubtotal | src/components/Cart.tsx:103 | a line of one unit costs its unit price, an empty line costs 0, and non-negative prices and counts give a non-negative subtotal |
| Cart.ExtrasLine | src/components/Cart.tsx:73-81 | the extras line appears exactly when add-ons are selected, and lists their labels |
| Cart.VariationBadge | src/components/Cart.tsx:68-72 | the variation badge appears exactly when a variation is selected, showing its name |
| Cart.MinusAction | src/components/Cart.tsx:88 | "-" asks for the line's quantity minus one for that line's id |
| Cart.PlusAction | src/components/Cart.tsx:95 | "+" asks for the line's quantity plus one for that line's id |
| Cart.MinusIsUnclamped | src/components/Cart.tsx:88 | the cart's "-" is not clamped: from 1 it asks for 0, and from 0 for a negative count |
| Cart.PlusAddsOneUnit | src/components/Cart.tsx:95-103 | after "+" the line subtotal grows by exactly one unit price |
| Cart.LineActions | src/components/Cart.tsx:86-110 | a line's three buttons are, in order, its "-" request, its "+" request and its removal, each naming that line |
| Cart.LineOffersSteppers | src/components/Cart.tsx:86-99 | every line's "-" and "+" requests are among the actions the cart view offers |
| Cart.AllLineActions | src/components/Cart.tsx:62-116 | each cart line contributes its "-", "+" and remove actions, in cart order |
| Cart.LineActionsAreLineActions | src/components/Cart.tsx:87-108 | the line controls only emit quantity updates and removals |
| Cart.Actions | src/components/Cart.tsx:24-130 | "Explore Menu" / "Go Back" comes first; an empty cart offers nothing else; otherwise "Reset Cart" comes second, then three buttons per line, with "Checkout Now" last |
| Cart.CheckoutOnlyWithItems | src/components/Cart.tsx:24-40 | an empty cart offers only "Explore Menu"; checkout and reset are offered exactly when there are items |
| Cart.RemoveTargetsLines | src/components/Cart.tsx:108 | every line can be removed by its id, and every removal names a line in the cart |
| Cart.RemoveNamesALine | src/components/Cart.tsx:108 | a removal emitted by the line controls names the id of a line |
| Cart.DisplayedTotal | src/components/Cart.tsx:123 | the shown total is the store's total, or 0 when there is none |
| Checkout.ServiceLabel | src/components/Checkout.tsx:66 | the service is printed as "Dine-in", "Pickup" or "Delivery" |
| Checkout.IsDetailsValid | src/components/Checkout.tsx:106-109 | valid details always have a name and a contact number, an address for delivery and a time for dine-in |
| Checkout.DetailsValidByService | src/components/Checkout.tsx:106-109 | per service type: validity holds exactly when name, contact and that service's required fields are filled in |
| Checkout.InitialFormInvalid | src/components/Checkout.tsx:15-25 | the fresh form is not valid |
| Checkout.DeliveryNeedsAddress | src/components/Checkout.tsx:107 | a delivery without an address is blocked, and filling it in unblocks it |
| Checkout.FewerGuests | src/components/Checkout.tsx:235 | "-" lowers the party size by one, never below 1 |
| Checkout.MoreGuests | src/components/Checkout.tsx:243 | "+" raises the party size by one, never above 20 |
| Checkout.DefaultPayment | src/components/Checkout.tsx:33-37 | with a non-empty list and no choice, the first method is chosen; a choice is never overwritten |
| Checkout.DefaultPaymentSettles | src/components/Checkout.tsx:33-37 | running the effect again changes nothing |
| Checkout.PaymentName | src/components/Checkout.tsx:39 | the payment is named by the first method with the chosen id, or by the id when there is no such method or its name is empty |
| Checkout.TimeInfo | src/components/Checkout.tsx:46-48 | the custom text for a custom pickup, "<preset> minutes" for a preset, nothing for other services |
| Checkout.ValidPickupHasTime | src/components/Checkout.tsx:46-48 | with valid details, a pickup always states a time |
| Checkout.DineInInfo | src/components/Checkout.tsx:50-59 | for dine-in, the party-size line and the preferred-time line joined by a newline; empty for other service types |
| Checkout.PartySizeLine | src/components/Checkout.tsx:51 | the party-size line starts with its "Party Size: " prefix |
| Checkout.PreferredTimeLine | src/components/Checkout.tsx:51-58 | the preferred-time line reads "Not specified" without a time, and the formatted time otherwise |
| Checkout.PartySizeWording | src/components/Checkout.tsx:51 | after the prefix and the number comes exactly " person", with an "s" when the party is not one person, and the number printed reads back as the party size |
| Checkout.PreferredTimeWording | src/components/Checkout.tsx:51-58 | "Not specified" is shown exactly when no time was given |
| Checkout.ItemLine | src/components/Checkout.tsx:74-85 | a transcript item line starts with the bullet and the item's name, followed by the variation in parentheses when one is chosen, and ends with " x", the quantity, " - ₱" and the formatted subtotal |
| Checkout.ItemLines | src/components/Checkout.tsx:73-87 | one transcript line per cart line, in order |
| Checkout.ItemLineWithoutExtras | src/components/Checkout.tsx:74-85 | without selected add-ons (none or an empty list) the line is exactly the bullet, the name, the variation if any, " x", the quantity, " - ₱" and the subtotal, with no " + " |
| Checkout.ItemLineSharesCartExtras | src/components/Checkout.tsx:74-85 | with selected add-ons the line is exactly the bullet, the name, the variation if any, " + ", the same add-on text as the cart's extras line, then the count and subtotal |
| Checkout.TranscriptAsWritten | src/components/Checkout.tsx:61-98 | definition of the message text as the template concatenates it; its properties are stated by `TranscriptIsLines`, `TranscriptSplitsIntoLines` and `TranscriptReadsBack` |
| Checkout.TranscriptLines | src/components/Checkout.tsx:61-98 | the line table has at least 22 lines, opens with the shop's header and closes with the confirmation line |
| Checkout.TranscriptIsLines | src/components/Checkout.tsx:61-98 | the template as written equals its line table joined by newlines |
| Checkout.TranscriptSplitsIntoLines | src/components/Checkout.tsx:61-98 | when no input carries a newline, splitting the message at newlines gives back the line table |
| Checkout.ItemLinesInCartOrder | src/components/Checkout.tsx:72-87 | the bulleted lines are exactly the item lines, in cart order |
| Checkout.LandmarkLineOnlyForDelivery | src/components/Checkout.tsx:67 | a landmark line appears exactly for a delivery with a non-empty landmark |
| Checkout.NotesLineOnlyWithNotes | src/components/Checkout.tsx:95 | a notes line appears exactly when notes were written |
| Checkout.OnePaymentLine | src/components/Checkout.tsx:92 | there is exactly one payment line, naming the chosen method |
| Checkout.TranscriptReadsBack | src/components/Checkout.tsx:61-98 | on the sent message: the item lines, the landmark line, the notes line and the payment line as above |
| CheckoutPage.WithText | src/components/Checkout.tsx:179-341 | an input's change sets that field only |
| CheckoutPage.ClearingNameOrContactBlocks | src/components/Checkout.tsx:106 | an empty name or contact number always blocks the details step |
| CheckoutPage.CheckoutFlow.Valid | src/components/Checkout.tsx:41-43 | definition of the page invariant: the party size within the stepper's bounds, and the payment step only with valid details; every handler's contract keeps it |
| CheckoutPage.CheckoutFlow.constructor | src/components/Checkout.tsx:14-25 | the details step over the initial form, with party size 1 |
| CheckoutPage.CheckoutFlow.EditText | src/components/Checkout.tsx:179-341 | a text input on the details step sets its field; on the payment step nothing changes |
| CheckoutPage.CheckoutFlow.SetServiceType | src/components/Checkout.tsx:213 | the service buttons set the service type on the details step |
| CheckoutPage.CheckoutFlow.SetPickupTime | src/components/Checkout.tsx:280 | the pickup buttons set the preset on the details step |
| CheckoutPage.CheckoutFlow.DecreasePartySize | src/components/Checkout.tsx:235 | "-" lowers the party size, which stays within [1, 20] |
| CheckoutPage.CheckoutFlow.IncreasePartySize | src/components/Checkout.tsx:243 | "+" raises the party size, which stays within [1, 20] |
| CheckoutPage.CheckoutFlow.ProceedToPayment | src/components/Checkout.tsx:41-43 | the step moves to payment exactly when the details are valid; the proceed button is disabled otherwise |
| CheckoutPage.CheckoutFlow.BackToDetails | src/components/Checkout.tsx:371 | "Back" returns to the details step with the form unchanged |
| CheckoutPage.CheckoutFlow.ApplyDefaultPayment | src/components/Checkout.tsx:33-37 | the effect fills in the default payment method and changes nothing else |
| CheckoutPage.CheckoutFlow.SelectPaymentMethod | src/components/Checkout.tsx:390 | a payment button on the payment step chooses that method |
| CheckoutPage.CheckoutFlow.PlaceOrder | src/components/Checkout.tsx:45-104 | the message is the transcript of the current form; the details behind it are valid; with single-line inputs it reads back as the line table |
| CheckoutPage.ProceedOnlyWhenValid | src/components/Checkout.tsx:350-351 | a fresh page whose inputs are filled through its own handlers (text inputs, service and pickup buttons, repeated "+" on the party size) reaches payment on "Proceed" exactly when those details are valid |
| Text.SplitJoin | src/components/Checkout.tsx:87 | splitting lines joined by a separator they do not contain gives the lines back |
| Text.IntToDecimalRoundTrip | src/components/Checkout.tsx:85 | a printed count reads back as the count |

## Left out

- Rendering: JSX, class names, icons, animations and image `onError` fallbacks are presentation only.
- Browser calls: `window.scrollTo`, `encodeURIComponent` and `window.open` (Checkout.tsx lines 28-30 and 100-103). The model stops at the transcript string. URL encoding and the handoff to the messaging app are not modelled.
- Formatting: `toLocaleString` of the dine-in time, `toFixed(2)` of the total and the printing of a line subtotal are uninterpreted functions. Floating-point arithmetic is not modelled. Prices are exact integers, and NaN does not arise.
- Data hooks: `usePaymentMethods` and the other data hooks are external. Their data is an input of the model.
- Cart store: the store behind `updateQuantity`, `removeFromCart`, `clearCart` and `getTotalPrice` is not part of this model. The cart model stops at the requests the views emit.
- Card and cart spread: the cart line the card builds also copies the menu item's other fields through `...item`. The model keeps only the fields the cart and the transcript read.
- Other components: `Header.tsx`, `SubNav.tsx`, `Hero.tsx` and `FloatingCartButton.tsx` are presentation and are not modelled.
- Type declarations: the shared types in `src/types` are not part of this model. The records in `catalog.dfy` hold the fields the modelled code reads.
- Displayed price: when `isOnDiscount` is set and `discountPrice` is non-zero, the card shows the discount price with the base price struck through (MenuItemCard.tsx lines 179-192). That displayed price is not modelled. It can differ from the price put in the cart, which is `effectivePrice || basePrice` plus the options.
- MenuItemCard.Card.GroupAddOns: the grouping is a map, so it does not capture the order in which JavaScript enumerates the group keys.
- MenuItemCard.Card.GroupAddOns: a category named like an `Object.prototype` member (such as `toString`) makes the source's reduce misbehave. The model treats every category as a plain key.
- Checkout.TranscriptSplitsIntoLines: the notes input is a multi-line textarea. The line-level facts only hold for inputs without newlines. A newline in the notes or in another field spreads that text over several lines.
- Empty-string cases: a category of "" and an effective price of 0 are JavaScript falsy values, and the model handles them as the source does. Other inputs are not restricted beyond their types.
