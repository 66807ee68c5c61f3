# EchoGift storefront logic in Dafny

EchoGift sells personalised songs: a single song ($79) or a five-song album
($299). Its website has three browser scripts:

- the **order form** on the landing page. It collects the form fields and
  checks them (required fields in a fixed order, then the e-mail shape). It
  shapes the fields into an order record, with an `albumSongs` list for
  albums, and stores the record in session storage before going to the
  checkout page. It also highlights the chosen price card.
- the **checkout page**. It reads the order back and shows it at the table
  price. It has a promo-code box, where `ELYSON` shows a 20% discount. On
  submit it either opens a payment link, or sends a notification e-mail and
  then hands over to the payment provider's hosted checkout. The payment-link
  path checks neither the price id nor the promo code. On the other path the
  price id is checked before the notification is sent. The promo code is
  checked after the notification, just before the provider is called.
- the **gallery**. It has play buttons over audio elements, with one
  "current" track at a time. Tracks pause when the page is hidden, and a
  category filter hides or shows the sample cards.

The model keeps the page state as plain values and objects. Session storage
is a `map` from keys to stored items. The browser address is a field. The
audio elements, play buttons, price cards, filter buttons and cards are
arrays. Calls to the outside world (the form relay, the payment provider,
the clock) are parameters or recorded events. Money is in integer cents.

Modules:

- `Text`: the ECMAScript string operations the scripts use. These are the
  white-space class of `\s` and `trim`, `includes`, `split(' ')`/`join(' ')`,
  upper-casing and decimal rendering.
- `Orders`: the order record, the album song entry and session storage,
  shared by the order form and the checkout page.
- `OrderCapture`: script.js.
- `Checkout`: checkout.js. The configuration constants are a `Config` value.
  `SiteConfig` holds the shipped values, so the payment-link path can be
  reasoned about as well.
- `Gallery`: gallery.js.

## Model

| member | source | states |
|---|---|---|
| Text.Trim | script.js:190 | the trimmed text is a slice of the input with only white space cut off before and after it, has no white space at either end, and is empty exactly when the input is all white space |
| Text.Includes | checkout.js:103 | `s.includes(part)`: some slice of `s` starting at an index equals `part` |
| Text.ToUpperCase | checkout.js:288 | the result has the input's length and each character upper-cased, ASCII letters only |
| Text.ToUpperCaseFixedPoints | checkout.js:288 | upper-casing changes a string exactly when it has a lower-case letter, leaves none, and is idempotent |
| Text.SplitOnSpace | gallery.js:113 | `split(' ')` gives at least one piece and no piece holds a space |
| Text.JoinSplit | gallery.js:113 | splitting a category string on spaces and joining the pieces with spaces gives the string back |
| Text.SplitJoin | gallery.js:113 | joining space-free tags with spaces and splitting the result gives the tags back |
| Text.DecimalInjective | checkout.js:214 | distinct song numbers render as distinct decimal strings |
| OrderCapture.ValidEmail | script.js:204-207 | the e-mail check as a direct condition: no white space, an `@` with a non-empty local part before it, no second `@`, and a dot inside the domain; it agrees with the regular expression by `ValidEmailMatchesPattern` |
| OrderCapture.ValidEmailMatchesPattern | script.js:204-207 | the e-mail check holds exactly when the string is three runs without white space or `@`, separated by an `@` and then a `.`; equivalently: no white space, exactly one `@`, a non-empty local part, and a dot inside the domain |
| OrderCapture.FormDataOfKeys | script.js:74-83 | the collected `data` object has exactly one key per entry name |
| OrderCapture.FormDataOfLastWins | script.js:77-83 | under each name `data` holds the last entry with that name; the terms checkbox holds its `checked` state instead of its value |
| OrderCapture.CollectFormData | script.js:77-83 | the copying loop yields exactly the last-entry-wins object, and only the terms field holds a flag |
| OrderCapture.ReplaceFirstHyphen | script.js:191 | only the first hyphen of the field name becomes a space and every other character is kept; a name without a hyphen is unchanged |
| OrderCapture.FailureInPasses | script.js:183-199 | checking the fields in order reports nothing exactly when every field passes and the e-mail has its shape, and reports the e-mail failure exactly when only the e-mail is wrong |
| OrderCapture.FailureInFirst | script.js:183-194 | any other reported failure belongs to the first failing field in the list |
| OrderCapture.ValidateOrderForm | script.js:170-202 | the loop reports exactly `FirstFailure`: the form is accepted exactly when every required field passes and the e-mail has the right shape; an unaccepted terms box always fails; an e-mail failure is reported exactly when all fields are present; otherwise the failure names the first failing field in the listed order |
| OrderCapture.AlbumSongsEntries | script.js:107-119 | every `albumSongs` entry has a song number in 1..5, a non-empty title or story, and that song's fields |
| OrderCapture.AlbumSongsAscending | script.js:107-119 | entries are strictly ascending by song number, so there are at most five |
| OrderCapture.AlbumSongsComplete | script.js:111-118 | song i is listed exactly when its title or story is non-empty |
| OrderCapture.BuildOrderRecord | script.js:91-120 | the record copies the form fields, defaults missing text (the artwork inspiration) to the empty string, sets delivery to "Email Download", and has `albumSongs` exactly for an album, built by the positional loop over songs 1..5 |
| OrderCapture.OrderForm.ShowError | script.js:186-198 | the page records the failure and shows its message |
| OrderCapture.OrderForm.StoreOrder | script.js:90-126 | the order record is stored under `orderData`, every other key is kept, and the page goes to `checkout.html` |
| OrderCapture.OrderForm.Submit | script.js:70-127 | a rejected form records exactly the first failure and shows its message, writes no storage and does not navigate; an accepted form stores the order record under `orderData`, keeps every other key, and navigates to `checkout.html` |
| OrderCapture.UpdatePricingHighlight | script.js:210-222 | afterwards card 0 is featured exactly for "single", card 1 exactly for "album", and no other card; when the card for the type does not exist, no card is featured |
| Checkout.Pricing | checkout.js:20-23 | exactly "single" and "album" have a table entry: "single" the single song, "album" the album |
| Checkout.PaymentLinkUsable | checkout.js:103 | the payment-link path needs the switch on and a link for the product that is non-empty and has no `YOUR_` placeholder |
| Checkout.PriceIdConfigured | checkout.js:125 | the client path needs a non-empty price id without the `1234567890` placeholder |
| Checkout.SiteConfigUsesClientCheckout | checkout.js:5-18 | with the shipped configuration the payment-link path is never taken, and both price ids pass the placeholder check |
| Checkout.SubtotalCents | checkout.js:329 | the subtotal is the loaded order total when it is set and non-zero, and 7900 cents otherwise |
| Checkout.DiscountCents | checkout.js:329-332 | the discount never exceeds the subtotal and is exactly a fifth of it when the subtotal is a multiple of five cents |
| Checkout.PromoDiscounts | checkout.js:329-332 | the promo gives 15.80 off 79.00 (total 63.20) and 59.80 off 299.00 (total 239.20) |
| Checkout.PromoBlocksCheckout | checkout.js:159-168 | a non-empty code other than exactly `ELYSON` stops checkout, compared case-sensitively |
| Checkout.PromoCaseMismatch | checkout.js:159-168 | a code the promo box accepts after upper-casing stops checkout at submit unless it was typed exactly as `ELYSON`; "elyson" is one such code |
| Checkout.LabelInjective | checkout.js:214-216 | two per-song payload keys are equal exactly when song number and field are |
| Checkout.WithSongsKeeps | checkout.js:211-219 | the song loop touches no key outside the per-song keys |
| Checkout.WithSongsKeys | checkout.js:211-219 | after the song loop, song n's title, story and language keys are each present exactly when they were before or some song numbered n has a title or story |
| Checkout.PayloadSubject | checkout.js:189 | the subject has the " - PROMO: <code>" suffix exactly when a code was entered |
| Checkout.PayloadPromo | checkout.js:222-225 | the promo code and note keys are present exactly when a code was entered, and the note says the code is valid exactly when it is `ELYSON` |
| Checkout.PayloadSongKeys | checkout.js:210-219 | per-song title, story and language keys appear only for an album, and then exactly for songs with a title or story |
| Checkout.Payload | checkout.js:186-230 | the posted dictionary always ends with the order source, an order id `EG-<now>` and the pending status |
| Checkout.SendOrderDetailsEmail | checkout.js:186-245 | the dictionary filled step by step is the payload above, and the call fails unless the relay answers OK |
| Checkout.LinkParams | checkout.js:107-114 | a payment link gets exactly the e-mail, the order id `EG-<now>` and, only when a code was entered, that code |
| Checkout.ProviderError | checkout.js:176-181 | a provider error mentioning the client-only integration becomes the setup instructions; any other error is passed on unchanged |
| Checkout.CheckoutPage.LoadOrderData | checkout.js:35-65 | without a stored order naming a product type, the page goes to `index.html` and changes no other field; an unknown product type changes nothing; otherwise subtotal, total and button show the table price and the order and its total are kept |
| Checkout.CheckoutPage.ShowOrder | checkout.js:45-64 | the summary shows the product, its price as subtotal and total, and the order details with "N/A" for blanks |
| Checkout.CheckoutPage.TypeCoupon | checkout.js:284 | the promo box holds the typed text |
| Checkout.CheckoutPage.ValidateCoupon | checkout.js:303-366 | an empty code only asks for a code; `ELYSON` shows a discount and a total that add up to the subtotal, with the discount a fifth of it, and records the code as applied and on the order; any other code hides the discount row and notice, shows the undiscounted total, and leaves the applied code as it was |
| Checkout.CheckoutPage.ApplyCoupon | checkout.js:282-301 | the button and Enter key validate the trimmed, upper-cased box content |
| Checkout.CheckoutPage.CreateCheckoutSession | checkout.js:97-183 | a usable payment link gets the e-mail, an order id and, exactly when a code was entered, the promo code, and the order is kept as `pendingOrder`; otherwise a missing or placeholder price id fails before any outside call; then the notification is always attempted first, whatever its outcome; a code other than exactly `ELYSON` then alerts and fails before the provider is called; otherwise the provider is called and either takes over or its error is reported (replaced by setup instructions for the client-only message) |
| Checkout.CheckoutPage.HandleSubmit | checkout.js:72-95 | the button is disabled during checkout and enabled again, with the error (or a default text) shown, exactly when checkout fails |
| Checkout.CheckoutPage.BeforeUnload | checkout.js:369-374 | the loaded order, with any promo mark, is written back under `orderData` unless a confirmation is stored |
| Gallery.FirstIndex | gallery.js:52 | the lookup finds the first element with the id, and finds none exactly when no element has it |
| Gallery.AudioGallery.Click | gallery.js:50-88 | a button naming no audio changes nothing; otherwise a different current audio is paused and rewound to 0 and its button reset, and the clicked audio is played and made current or paused and the tracker cleared; afterwards at most one audio plays and it is the current one |
| Gallery.AudioGallery.PlaybackEnds | gallery.js:82-87 | the ended audio is paused, each button with a listener for it is reset, and the tracker is cleared when any listener exists |
| Gallery.AudioGallery.PageHidden | gallery.js:134-148 | every audio ends up paused, the first button of each audio that was playing is reset, and the tracker is left as it was |
| Gallery.CardVisible | gallery.js:106-126 | a card stays shown when the filter is "all" or one of the space-separated pieces of its categories |
| Gallery.CardVisibleTags | gallery.js:106-126 | a card whose categories are space-joined tags stays shown exactly when the filter is "all" or one of its tags |
| Gallery.SpacedFilterHidesAll | gallery.js:113-114 | a filter containing a space matches no card |
| Gallery.FilterBar.Click | gallery.js:96-130 | afterwards exactly the clicked filter button is active and each card is shown exactly when it matches the filter |

## Left out

- Payment provider and form relay: `Stripe(...)`, `redirectToCheckout` and the `fetch` to the form relay are outside calls. Each is modelled only as a recorded event and an outcome supplied by the caller (`Env`). The publishable key, the success and cancel URLs and the `mode`/`quantity` parameters are not modelled.
- Clock: `Date.now()` and `toLocaleDateString()` are inputs (`Env.now`, `Env.orderDate`). `getEstimatedDelivery` is not modelled.
- URL handling: `new URL(...)` and `searchParams.set` (parsing, percent-encoding, existing query strings) are not modelled. A payment-link destination is the link plus a map of its parameters.
- Number formatting: floats and `toFixed(2)` are replaced by integer cents, so the exact label text of prices is not modelled.
- JSON: the round trip through `JSON.stringify`/`JSON.parse` is taken to preserve the record. A stored text that is not an order counts as an order with no product type.
- Checkout.CheckoutPage.LoadOrderData: stored text that is not valid JSON, or is `null`, makes the script throw at checkout.js:37 or checkout.js:40 and stop without redirecting. The model treats every such text as an order with no product type, so it redirects to `index.html`.
- Checkout.CheckoutPage.LoadOrderData: the script's TypeError on an unknown product type also stops the coupon and submit handlers from being attached. The model only reports `UnknownProduct` and leaves that consequence to the caller.
- Text.ToUpperCase: upper-cases ASCII letters only. Non-ASCII case mapping (such as ß to SS) is not modelled.
- Presentation: colours, spinner and button-text toggling, error-box creation and scrolling, the coupon message markup, CSS classes other than `featured`/`active`/`playing`, opacity and transform transitions, and the toast lifecycle of `showErrorMessage` are not modelled.
- Timers: the filter hides a card only after a 300 ms timer. A later click that shows the card again can be undone by that timer. The model keeps only the final display of each click.
- Gallery.AudioGallery.Click: `audio.play()` is taken to succeed. A rejected play promise (such as blocked autoplay) is not modelled. The id is taken to name an audio element, and every button is taken to sit inside an artwork card.
- Gallery.AudioGallery.PlaybackEnds: the playback position at the end of a track is not modelled.
- Gallery.FilterBar.Click: every card is taken to have a `data-category`. A card without one makes the script throw part-way through the loop.
- Image loading in the gallery (lazy loading, `IntersectionObserver`, fallback image) is not modelled.
- Landing-page plumbing is not modelled: `toggleMobileMenu`, `scrollToOrder`/`scrollToSamples`, `createAlbumFields`/`toggleAlbumFields` markup and focus listeners, the vinyl wait-list form, `showSuccessMessage`, and all console logging including `trackSongPlay`.
- The `async`/`await` structure is modelled as a fixed sequence of steps within one call.
