/** The checkout page (checkout.js): the price table, reading the stored
    order back, the promo-code box, the order-notification payload, and the
    submit sequence that gates on configuration and promo code before it
    hands over to the payment provider. Money is in integer cents. */
module Checkout {
  import opened Text
  import opened Orders

  // ---------------------------------------------------------------------
  // Tables and configuration
  // ---------------------------------------------------------------------

  datatype Product = Product(name: string, description: string, priceCents: nat)

  const SingleSong := Product("Personalized Song",
    "Custom AI-generated song with your story + custom artwork", 7900)
  const SongAlbum := Product("Custom Song Album",
    "5 personalized songs telling your complete story + custom artwork", 29900)

  /** `PRICING[productType]`. */
  function Pricing(productType: string): (p: Option<Product>)
    ensures p.Some? <==> productType == "single" || productType == "album"
    ensures p.Some? ==> p.value == SingleSong || p.value == SongAlbum
    ensures productType == "single" ==> p == Some(SingleSong)
    ensures productType == "album" ==> p == Some(SongAlbum)
  {
    if productType == "single" then Some(SingleSong)
    else if productType == "album" then Some(SongAlbum)
    else None
  }

  /** The price ids, the payment links and the switch between them. */
  datatype Config = Config(
    stripePrices: map<string, string>,
    paymentLinks: map<string, string>,
    usePaymentLinks: bool)

  /** The values the page ships with. */
  const SiteConfig := Config(
    map["single" := "price_1RsuIhEinaZMSMtjh8LOF9vc", "album" := "price_1RsuIqEinaZMSMtjlfcmwgvI"],
    map["single" := "https://buy.stripe.com/YOUR_SINGLE_SONG_PAYMENT_LINK",
        "album" := "https://buy.stripe.com/YOUR_ALBUM_PAYMENT_LINK"],
    false)

  /** The payment-link path is taken only when switched on and the link is
      set and no longer a placeholder. */
  predicate PaymentLinkUsable(config: Config, productType: string)
  {
    && config.usePaymentLinks
    && productType in config.paymentLinks
    && config.paymentLinks[productType] != ""
    && !Includes(config.paymentLinks[productType], "YOUR_")
  }

  /** A price id that is present and not the placeholder. */
  predicate PriceIdConfigured(config: Config, productType: string)
  {
    && productType in config.stripePrices
    && config.stripePrices[productType] != ""
    && !Includes(config.stripePrices[productType], "1234567890")
  }

  /** A string lacking one of the characters of `part` does not include
      `part`. */
  lemma {:induction false} NotIncludedWithout(s: string, part: string, c: char)
    requires c in part && c !in s
    ensures !Includes(s, part)
  {
    if |part| <= |s| {
      assert c !in s[..|part|] by {
        forall k | 0 <= k < |part| ensures s[..|part|][k] != c {
          assert s[..|part|][k] == s[k];
        }
      }
      assert c !in s[1..] by {
        forall k | 0 <= k < |s| - 1 ensures s[1..][k] != c {
          assert s[1..][k] == s[k + 1];
        }
      }
      NotIncludedWithout(s[1..], part, c);
    }
  }

  /** The shipped configuration never takes the payment-link path and has
      real price ids for both products. */
  lemma SiteConfigUsesClientCheckout(productType: string)
    ensures !PaymentLinkUsable(SiteConfig, productType)
    ensures productType == "single" || productType == "album" ==> PriceIdConfigured(SiteConfig, productType)
  {
    if productType == "single" {
      assert SiteConfig.stripePrices[productType] == "price_1RsuIhEinaZMSMtjh8LOF9vc";
      NotIncludedWithout("price_1RsuIhEinaZMSMtjh8LOF9vc", "1234567890", '2');
    } else if productType == "album" {
      assert SiteConfig.stripePrices[productType] == "price_1RsuIqEinaZMSMtjlfcmwgvI";
      NotIncludedWithout("price_1RsuIqEinaZMSMtjlfcmwgvI", "1234567890", '2');
    }
  }

  // ---------------------------------------------------------------------
  // Promo code
  // ---------------------------------------------------------------------

  const PromoCode := "ELYSON"
  const DiscountPercent := 20
  /** `window.orderTotal || 79`, the subtotal used before an order loaded. */
  const FallbackTotalCents := 7900

  function SubtotalCents(orderTotal: Option<nat>): (cents: nat)
    ensures cents > 0
    ensures orderTotal.Some? && orderTotal.value != 0 ==> cents == orderTotal.value
    ensures !(orderTotal.Some? && orderTotal.value != 0) ==> cents == FallbackTotalCents
  {
    if orderTotal.Some? && orderTotal.value != 0 then orderTotal.value else FallbackTotalCents
  }

  /** 20% of the subtotal; exact whenever the subtotal is a multiple of
      five cents, as both prices are. */
  function DiscountCents(subtotal: nat): (d: nat)
    ensures d <= subtotal
    ensures subtotal % 5 == 0 ==> d * 5 == subtotal
  {
    var d := subtotal * DiscountPercent / 100;
    assert subtotal % 5 == 0 ==> subtotal * DiscountPercent == 100 * (subtotal / 5);
    d
  }

  /** The discounts shown for the two products: 15.80 off 79.00 and 59.80
      off 299.00. */
  lemma PromoDiscounts()
    ensures DiscountCents(SingleSong.priceCents) == 1580
    ensures SingleSong.priceCents - DiscountCents(SingleSong.priceCents) == 6320
    ensures DiscountCents(SongAlbum.priceCents) == 5980
    ensures SongAlbum.priceCents - DiscountCents(SongAlbum.priceCents) == 23920
  {
    assert DiscountCents(7900) * 5 == 7900;
    assert DiscountCents(29900) * 5 == 29900;
  }

  /** The submit-time gate: a non-empty code other than exactly the promo
      code stops checkout. It compares case-sensitively. */
  predicate PromoBlocksCheckout(code: string)
  {
    code != "" && code != PromoCode
  }

  /** The promo box upper-cases what it validates, the submit gate does not:
      a code typed in lower case is accepted by the box and then stops
      checkout. */
  lemma PromoCaseMismatch(raw: string)
    requires ToUpperCase(Trim(raw)) == PromoCode
    ensures PromoBlocksCheckout(Trim(raw)) <==> Trim(raw) != PromoCode
    ensures PromoBlocksCheckout(Trim("elyson"))
  {
    assert |Trim(raw)| == 6;
    assert Trim("elyson") == "elyson" by { TrimKeepsInner("elyson"); }
  }

  // ---------------------------------------------------------------------
  // Notification payload
  // ---------------------------------------------------------------------

  /** The leading characters of the subject as stored in the script file. */
  const SubjectMark := "\U{00F0}\U{0178}\U{017D}\U{00B5}"

  function SubjectBase(order: Order): string
  {
    SubjectMark + " NEW SONG ORDER - " + order.recipientName + " (" + order.occasion + ")"
  }

  /** `value || fallback` for a string. */
  function OrElse(value: string, fallback: string): string
  {
    if value != "" then value else fallback
  }

  /** The clock and the network as seen by one submit. */
  datatype FetchOutcome = NetworkFailure | HttpResponse(ok: bool)

  datatype Env = Env(
    pageUrl: string,              // window.location.href
    orderDate: string,            // new Date().toLocaleDateString()
    now: nat,                     // Date.now()
    notification: FetchOutcome,   // what the form relay answers
    provider: Option<string>)     // redirectToCheckout: None, or its error message

  /** The object literal the payload starts from. */
  function BasePayload(order: Order, code: string, env: Env): map<string, string>
  {
    map[
      "_subject" := SubjectBase(order) + (if code != "" then " - PROMO: " + code else ""),
      "_template" := "box",
      "_next" := env.pageUrl,
      "Order Type" := if order.productType == "single" then "Personalized Song ($79)" else "Custom Album ($299)",
      "Customer Email" := order.email,
      "Order Date" := env.orderDate,
      "Recipient Name" := order.recipientName,
      "Occasion" := order.occasion,
      "Genre" := order.genre,
      "Tone" := order.tone,
      "Delivery Method" := order.delivery,
      "Story & Themes" := order.storyThemes,
      "Artwork Inspiration" := OrElse(order.artworkInspiration, "None provided")]
  }

  /** Keys beginning with "So", as every per-song key does. */
  predicate SongKeyShape(key: string)
  {
    |key| >= 2 && key[0] == 'S' && key[1] == 'o'
  }

  function SongLabel(songNumber: nat, field: string): (key: string)
    ensures SongKeyShape(key)
  {
    "Song " + DecimalString(songNumber) + " " + field
  }

  /** A label splits back into its number and its field. */
  lemma LabelParts(n: nat, field: string)
    ensures var a := DecimalString(n); var rest := SongLabel(n, field)[5..];
      && ' ' in rest && IndexOf(rest, ' ') == |a|
      && rest[..|a|] == a && rest[|a| + 1..] == field
  {
    var a := DecimalString(n);
    var rest := SongLabel(n, field)[5..];
    assert rest == a + " " + field;
    assert rest[..|a|] == a;
    assert ' ' !in a by {
      forall k | 0 <= k < |a| ensures a[k] != ' ' {
        assert '0' <= a[k] <= '9';
      }
    }
    IndexOfUnique(rest, ' ', |a|);
  }

  /** Two labels are equal exactly when number and field are. */
  lemma LabelInjective(m: nat, f: string, n: nat, g: string)
    ensures SongLabel(m, f) == SongLabel(n, g) <==> m == n && f == g
  {
    LabelParts(m, f);
    LabelParts(n, g);
    if SongLabel(m, f) == SongLabel(n, g) {
      DecimalInjective(m, n);
    }
  }

  /** A song with a title or a story is reported. */
  predicate Reported(song: AlbumSong)
  {
    song.title != "" || song.story != ""
  }

  /** One turn of the `forEach` over the album songs. */
  function AddSong(payload: map<string, string>, song: AlbumSong): map<string, string>
  {
    if Reported(song) then
      payload[SongLabel(song.songNumber, "Title") := OrElse(song.title, "No title provided")]
             [SongLabel(song.songNumber, "Story") := OrElse(song.story, "No story provided")]
             [SongLabel(song.songNumber, "Language") := OrElse(song.language, "Not specified")]
    else payload
  }

  /** The payload after visiting `songs` in order. */
  function WithSongs(payload: map<string, string>, songs: seq<AlbumSong>): map<string, string>
  {
    if songs == [] then payload
    else AddSong(WithSongs(payload, songs[..|songs| - 1]), songs[|songs| - 1])
  }

  const ValidPromoNote := "Valid code - Apply discount after payment"
  const UncheckedPromoNote := "Code entered but needs validation"

  function WithPromo(payload: map<string, string>, code: string): map<string, string>
  {
    if code != "" then
      payload["PROMO CODE" := code]
             ["PROMO NOTE" := if code == PromoCode then ValidPromoNote else UncheckedPromoNote]
    else payload
  }

  function WithTechnical(payload: map<string, string>, env: Env): map<string, string>
  {
    payload["Order Source" := "echogifts.shop"]
           ["Order ID" := "EG-" + DecimalString(env.now)]
           ["Status" := "Payment Pending"]
  }

  /** The dictionary posted to the form relay. */
  function Payload(order: Order, code: string, env: Env): (r: map<string, string>)
    ensures "Order Source" in r && r["Order Source"] == "echogifts.shop"
    ensures "Order ID" in r && r["Order ID"] == "EG-" + DecimalString(env.now)
    ensures "Status" in r && r["Status"] == "Payment Pending"
  {
    var base := BasePayload(order, code, env);
    var withSongs := if order.productType == "album" && order.albumSongs.Some?
                     then WithSongs(base, order.albumSongs.value) else base;
    WithTechnical(WithPromo(withSongs, code), env)
  }

  /** The song loop touches only keys of the per-song shape. */
  lemma {:induction false} WithSongsKeeps(payload: map<string, string>, songs: seq<AlbumSong>, key: string)
    requires !SongKeyShape(key)
    ensures key in WithSongs(payload, songs) <==> key in payload
    ensures key in payload ==> WithSongs(payload, songs)[key] == payload[key]
  {
    if songs != [] {
      WithSongsKeeps(payload, songs[..|songs| - 1], key);
    }
  }

  /** The fields each reported song adds. */
  predicate SongField(field: string)
  {
    field == "Title" || field == "Story" || field == "Language"
  }

  /** After the song loop, the key of song n for `field` is present exactly
      when it was before or some reported song carries number n. */
  lemma {:induction false} WithSongsKeys(payload: map<string, string>, songs: seq<AlbumSong>, n: nat, field: string)
    requires SongField(field)
    ensures SongLabel(n, field) in WithSongs(payload, songs) <==>
      SongLabel(n, field) in payload ||
      exists k :: 0 <= k < |songs| && songs[k].songNumber == n && Reported(songs[k])
  {
    if songs != [] {
      var init := songs[..|songs| - 1];
      var last := songs[|songs| - 1];
      WithSongsKeys(payload, init, n, field);
      LabelInjective(n, field, last.songNumber, "Title");
      LabelInjective(n, field, last.songNumber, "Story");
      LabelInjective(n, field, last.songNumber, "Language");
      if exists k :: 0 <= k < |init| && init[k].songNumber == n && Reported(init[k]) {
        var k :| 0 <= k < |init| && init[k].songNumber == n && Reported(init[k]);
        assert songs[k] == init[k];
      }
      if exists k :: 0 <= k < |songs| && songs[k].songNumber == n && Reported(songs[k]) {
        var k :| 0 <= k < |songs| && songs[k].songNumber == n && Reported(songs[k]);
        if k < |init| {
          assert init[k] == songs[k];
        }
      }
    }
  }

  /** The subject carries the promo suffix exactly when a code was entered. */
  lemma PayloadSubject(order: Order, code: string, env: Env)
    ensures "_subject" in Payload(order, code, env)
    ensures code == "" ==> Payload(order, code, env)["_subject"] == SubjectBase(order)
    ensures code != "" ==> Payload(order, code, env)["_subject"] == SubjectBase(order) + " - PROMO: " + code
  {
    var base := BasePayload(order, code, env);
    if order.productType == "album" && order.albumSongs.Some? {
      WithSongsKeeps(base, order.albumSongs.value, "_subject");
    }
  }

  /** The promo keys appear exactly when a code was entered, and the note
      calls it valid exactly when it is the promo code. */
  lemma PayloadPromo(order: Order, code: string, env: Env)
    ensures ("PROMO CODE" in Payload(order, code, env)) <==> code != ""
    ensures ("PROMO NOTE" in Payload(order, code, env)) <==> code != ""
    ensures code != "" ==> Payload(order, code, env)["PROMO CODE"] == code
    ensures code != "" ==> (Payload(order, code, env)["PROMO NOTE"] == ValidPromoNote <==> code == PromoCode)
  {
    var base := BasePayload(order, code, env);
    if order.productType == "album" && order.albumSongs.Some? {
      WithSongsKeeps(base, order.albumSongs.value, "PROMO CODE");
      WithSongsKeeps(base, order.albumSongs.value, "PROMO NOTE");
    }
  }

  /** Per-song keys (title, story and language alike) appear only for an
      album, and then exactly for the songs with a title or a story. */
  lemma PayloadSongKeys(order: Order, code: string, env: Env, n: nat, field: string)
    requires SongField(field)
    ensures SongLabel(n, field) in Payload(order, code, env) <==>
      && order.productType == "album" && order.albumSongs.Some?
      && exists k :: 0 <= k < |order.albumSongs.value| &&
           order.albumSongs.value[k].songNumber == n && Reported(order.albumSongs.value[k])
  {
    var key := SongLabel(n, field);
    var base := BasePayload(order, code, env);
    assert key !in base by {
      assert key[0] == 'S' && key[1] == 'o';
    }
    if order.productType == "album" && order.albumSongs.Some? {
      WithSongsKeys(base, order.albumSongs.value, n, field);
    }
  }

  /** `sendOrderDetailsEmail`: the dictionary is filled step by step, the
      album songs in a loop; `delivered` is false when the request fails or
      the answer is not OK, which the script turns into an exception. */
  method SendOrderDetailsEmail(order: Order, code: string, env: Env)
    returns (payload: map<string, string>, delivered: bool)
    ensures payload == Payload(order, code, env)
    ensures delivered <==> env.notification == HttpResponse(true)
  {
    payload := BasePayload(order, code, env);
    if order.productType == "album" && order.albumSongs.Some? {
      var songs := order.albumSongs.value;
      ghost var base := payload;
      for i := 0 to |songs|
        invariant payload == WithSongs(base, songs[..i])
      {
        var song := songs[i];
        if song.title != "" || song.story != "" {
          payload := payload[SongLabel(song.songNumber, "Title") := OrElse(song.title, "No title provided")];
          payload := payload[SongLabel(song.songNumber, "Story") := OrElse(song.story, "No story provided")];
          payload := payload[SongLabel(song.songNumber, "Language") := OrElse(song.language, "Not specified")];
        }
        assert songs[..i + 1][..i] == songs[..i];
      }
      assert songs[..|songs|] == songs;
    }
    if code != "" {
      payload := payload["PROMO CODE" := code];
      payload := payload["PROMO NOTE" := if code == PromoCode then ValidPromoNote else UncheckedPromoNote];
    }
    payload := payload["Order Source" := "echogifts.shop"];
    payload := payload["Order ID" := "EG-" + DecimalString(env.now)];
    payload := payload["Status" := "Payment Pending"];
    delivered := env.notification == HttpResponse(true);
  }

  // ---------------------------------------------------------------------
  // The page
  // ---------------------------------------------------------------------

  /** Where the page sends the browser. */
  datatype Destination =
    | Page(path: string)
    | PaymentLink(link: string, params: map<string, string>)
    | HostedCheckout(priceId: string, customerEmail: string)

  /** Calls to the outside, in the order they were made. */
  datatype Event =
    | NotificationAttempt(payload: map<string, string>, delivered: bool)
    | Alert(message: string)
    | CheckoutRequest(priceId: string, customerEmail: string)

  /** What the "final total" button label shows. */
  datatype ButtonAmount = Amount(cents: nat) | AmountBeforeDiscount(cents: nat)

  datatype CouponMessage = EnterCode | CodeAccepted | InvalidCode

  datatype LoadResult = Redirected | Loaded | UnknownProduct

  const OrderFormPage := "index.html"
  const UnrecognizedPromoAlert := "This promo code is not recognized. Please check the code and try again."
  const InvalidPromoError := "Invalid promo code"
  const ConfigError := "Stripe price IDs not configured. Please set up your products in Stripe Dashboard."
  const SetupError := "Stripe checkout needs to be configured. Please enable \"Client-only integration\" in your Stripe Dashboard at https://dashboard.stripe.com/account/checkout/settings, or contact support."
  const MissingOrderError := "Cannot read properties of undefined (reading 'productType')"
  const DefaultCheckoutError := "An error occurred starting checkout."

  /** The query parameters set on a payment link. */
  function LinkParams(order: Order, code: string, now: nat): (r: map<string, string>)
    ensures r.Keys == {"prefilled_email", "client_reference_id"} +
                      (if code != "" then {"prefilled_promo_code"} else {})
    ensures r["prefilled_email"] == order.email
    ensures r["client_reference_id"] == "EG-" + DecimalString(now)
    ensures code != "" ==> r["prefilled_promo_code"] == code
  {
    var params := map["prefilled_email" := order.email]["client_reference_id" := "EG-" + DecimalString(now)];
    if code != "" then params["prefilled_promo_code" := code] else params
  }

  /** The error a failed provider call surfaces. */
  function ProviderError(message: string): (r: string)
    ensures Includes(message, "client-only integration") ==> r == SetupError
    ensures !Includes(message, "client-only integration") ==> r == message
  {
    if message != "" && Includes(message, "client-only integration") then SetupError else message
  }

  /** The order under `orderData`, when one is stored. */
  function StoredOrder(storage: SessionStorage): Option<Order>
  {
    if OrderDataKey in storage && storage[OrderDataKey].OrderJson? then Some(storage[OrderDataKey].order) else None
  }

  /** `value || 'N/A'`. */
  function OrNA(value: string): string
  {
    OrElse(value, "N/A")
  }

  /** A `getItem` result that is truthy. */
  predicate StoredTruthy(storage: SessionStorage, key: string)
  {
    key in storage && (storage[key].OrderJson? || storage[key].text != "")
  }

  class CheckoutPage {
    // session state and navigation
    var storage: SessionStorage
    var location: Option<Destination>
    // window.orderData, window.orderTotal and the module's appliedCoupon
    var orderData: Option<Order>
    var orderTotal: Option<nat>
    var appliedCoupon: Option<string>
    // the order summary
    var shownProduct: Option<Product>
    var subtotalCents: Option<nat>
    var finalTotalCents: Option<nat>
    var buttonAmount: Option<ButtonAmount>
    var recipientShown: string
    var occasionShown: string
    var genreShown: string
    var toneShown: string
    var emailInput: string
    // the promo box
    var couponInput: string
    var couponMessage: Option<CouponMessage>
    var discountRowVisible: bool
    var discountCents: Option<nat>
    var promoNoticeVisible: bool
    // the payment form
    var submitDisabled: bool
    var paymentError: Option<string>
    var events: seq<Event>

    /** A loaded order total is one of the two prices, and it is loaded
        together with the order. */
    ghost predicate Valid()
      reads this
    {
      && (orderTotal.Some? <==> orderData.Some?)
      && (orderTotal.Some? ==> orderTotal.value == SingleSong.priceCents || orderTotal.value == SongAlbum.priceCents)
    }

    constructor (storage: SessionStorage)
      ensures Valid()
      ensures this.storage == storage && location == None && events == []
      ensures orderData == None && orderTotal == None && appliedCoupon == None
      ensures couponInput == "" && couponMessage == None && !discountRowVisible && !promoNoticeVisible
      ensures !submitDisabled && paymentError == None
    {
      this.storage := storage;
      location := None;
      orderData, orderTotal, appliedCoupon := None, None, None;
      shownProduct, subtotalCents, finalTotalCents, buttonAmount := None, None, None, None;
      recipientShown, occasionShown, genreShown, toneShown, emailInput := "", "", "", "", "";
      couponInput, couponMessage := "", None;
      discountRowVisible, discountCents, promoNoticeVisible := false, None, false;
      submitDisabled, paymentError, events := false, None, [];
    }

    /** `loadOrderData`: without a stored order that names a product type,
        go back to the order form and fill in nothing; otherwise show the
        product and its price as subtotal and total. An unknown product
        type stops the script before anything is filled in. */
    method LoadOrderData() returns (result: LoadResult)
      requires Valid()
      modifies this`location, this`orderData, this`orderTotal, this`shownProduct, this`subtotalCents,
               this`finalTotalCents, this`buttonAmount, this`recipientShown, this`occasionShown,
               this`genreShown, this`toneShown, this`emailInput
      ensures Valid()
      ensures result == Redirected <==> StoredOrder(storage).None? || StoredOrder(storage).value.productType == ""
      ensures result == UnknownProduct <==>
        StoredOrder(storage).Some? && StoredOrder(storage).value.productType != "" &&
        Pricing(StoredOrder(storage).value.productType).None?
      ensures result == Redirected ==> location == Some(Page(OrderFormPage))
      ensures result != Redirected ==> location == old(location)
      ensures result != Loaded ==>
        && orderData == old(orderData) && orderTotal == old(orderTotal)
        && shownProduct == old(shownProduct) && subtotalCents == old(subtotalCents)
        && finalTotalCents == old(finalTotalCents) && buttonAmount == old(buttonAmount)
        && recipientShown == old(recipientShown) && occasionShown == old(occasionShown)
        && genreShown == old(genreShown) && toneShown == old(toneShown) && emailInput == old(emailInput)
      ensures result == Loaded ==> ShowsOrder(StoredOrder(storage).value)
    {
      var stored := StoredOrder(storage);
      if stored.None? || stored.value.productType == "" {
        location := Some(Page(OrderFormPage));
        return Redirected;
      }
      var order := stored.value;
      var product := Pricing(order.productType);
      if product.None? {
        return UnknownProduct;
      }
      ShowOrder(order);
      return Loaded;
    }

    /** Fill the order summary and keep the order and its price. */
    method ShowOrder(order: Order)
      requires Pricing(order.productType).Some?
      modifies this`orderData, this`orderTotal, this`shownProduct, this`subtotalCents,
               this`finalTotalCents, this`buttonAmount, this`recipientShown, this`occasionShown,
               this`genreShown, this`toneShown, this`emailInput
      ensures Valid() && ShowsOrder(order)
    {
      var product := Pricing(order.productType).value;
      var price := product.priceCents;
      shownProduct := Some(product);
      subtotalCents, finalTotalCents := Some(price), Some(price);
      buttonAmount := Some(Amount(price));
      recipientShown, occasionShown := OrNA(order.recipientName), OrNA(order.occasion);
      genreShown, toneShown := OrNA(order.genre), OrNA(order.tone);
      emailInput := order.email;
      orderData := Some(order);
      orderTotal := Some(price);
    }

    /** The summary shows `order` at its table price, with nothing off. */
    ghost predicate ShowsOrder(order: Order)
      reads this
    {
      && Pricing(order.productType).Some?
      && var product := Pricing(order.productType).value;
      && orderData == Some(order) && orderTotal == Some(product.priceCents)
      && shownProduct == Some(product)
      && subtotalCents == Some(product.priceCents) && finalTotalCents == Some(product.priceCents)
      && buttonAmount == Some(Amount(product.priceCents))
      && recipientShown == OrNA(order.recipientName) && occasionShown == OrNA(order.occasion)
      && genreShown == OrNA(order.genre) && toneShown == OrNA(order.tone)
      && emailInput == order.email
    }

    /** The user types into the promo box. */
    method TypeCoupon(text: string)
      modifies this`couponInput
      ensures couponInput == text
    {
      couponInput := text;
    }

    /** What `validateCoupon(code)` does to the page. */
    twostate predicate CouponEffects(code: string)
      reads this
    {
      var subtotal := SubtotalCents(old(orderTotal));
      if code == "" then
        && couponMessage == Some(EnterCode)
        && discountRowVisible == old(discountRowVisible) && discountCents == old(discountCents)
        && finalTotalCents == old(finalTotalCents) && buttonAmount == old(buttonAmount)
        && promoNoticeVisible == old(promoNoticeVisible)
        && appliedCoupon == old(appliedCoupon) && orderData == old(orderData)
      else if code == PromoCode then
        && couponMessage == Some(CodeAccepted)
        && discountRowVisible && promoNoticeVisible
        && discountCents == Some(DiscountCents(subtotal))
        && finalTotalCents == Some(subtotal - DiscountCents(subtotal))
        && buttonAmount == Some(AmountBeforeDiscount(subtotal))
        && appliedCoupon == Some(code)
        && orderData == (if old(orderData).Some? then Some(old(orderData).value.(promoCode := Some(code))) else None)
      else
        && couponMessage == Some(InvalidCode)
        && !discountRowVisible && !promoNoticeVisible
        && discountCents == old(discountCents)
        && finalTotalCents == Some(subtotal)
        && buttonAmount == Some(Amount(subtotal))
        && appliedCoupon == old(appliedCoupon) && orderData == old(orderData)
    }

    /** `validateCoupon`. With the promo code the shown discount and total
        add up to the subtotal, and the discount is a fifth of it. */
    method ValidateCoupon(code: string)
      requires Valid()
      modifies this`couponMessage, this`discountRowVisible, this`discountCents, this`finalTotalCents,
               this`buttonAmount, this`promoNoticeVisible, this`appliedCoupon, this`orderData
      ensures Valid()
      ensures CouponEffects(code)
      ensures code == PromoCode ==>
        discountCents.value + finalTotalCents.value == SubtotalCents(orderTotal) &&
        discountCents.value * 5 == SubtotalCents(orderTotal)
    {
      if code == "" {
        couponMessage := Some(EnterCode);
        return;
      }
      var subtotal := SubtotalCents(orderTotal);
      if code == PromoCode {
        couponMessage := Some(CodeAccepted);
        var discount := DiscountCents(subtotal);
        discountRowVisible := true;
        discountCents := Some(discount);
        finalTotalCents := Some(subtotal - discount);
        buttonAmount := Some(AmountBeforeDiscount(subtotal));
        promoNoticeVisible := true;
        appliedCoupon := Some(code);
        if orderData.Some? {
          orderData := Some(orderData.value.(promoCode := Some(code)));
        }
      } else {
        couponMessage := Some(InvalidCode);
        discountRowVisible := false;
        promoNoticeVisible := false;
        finalTotalCents := Some(subtotal);
        buttonAmount := Some(Amount(subtotal));
      }
    }

    /** The apply button and the Enter key: the trimmed, upper-cased box
        content goes to `validateCoupon`. */
    method ApplyCoupon()
      requires Valid()
      modifies this`couponMessage, this`discountRowVisible, this`discountCents, this`finalTotalCents,
               this`buttonAmount, this`promoNoticeVisible, this`appliedCoupon, this`orderData
      ensures Valid()
      ensures CouponEffects(ToUpperCase(Trim(couponInput)))
    {
      ValidateCoupon(ToUpperCase(Trim(couponInput)));
    }

    /** What `createStripeCheckoutSession` does, and the error it throws
        (`None` when it returns normally). */
    twostate predicate SessionEffects(config: Config, env: Env, new err: Option<string>)
      reads this
    {
      match old(orderData)
      case None =>
        err == Some(MissingOrderError) &&
        events == old(events) && storage == old(storage) && location == old(location)
      case Some(order) =>
        var code := Trim(old(couponInput));
        var productType := order.productType;
        if PaymentLinkUsable(config, productType) then
          && err == None && events == old(events)
          && storage == old(storage)[PendingOrderKey := OrderJson(order)]
          && location == Some(PaymentLink(config.paymentLinks[productType], LinkParams(order, code, env.now)))
        else if !PriceIdConfigured(config, productType) then
          && err == Some(ConfigError)
          && events == old(events) && storage == old(storage) && location == old(location)
        else
          var attempt := NotificationAttempt(Payload(order, code, env), env.notification == HttpResponse(true));
          && storage == old(storage)
          && if PromoBlocksCheckout(code) then
               && events == old(events) + [attempt, Alert(UnrecognizedPromoAlert)]
               && err == Some(InvalidPromoError) && location == old(location)
             else
               var priceId := config.stripePrices[productType];
               && events == old(events) + [attempt, CheckoutRequest(priceId, order.email)]
               && match env.provider
                  case None => err == None && location == Some(HostedCheckout(priceId, order.email))
                  case Some(message) => err == Some(ProviderError(message)) && location == old(location)
    }

    /** `createStripeCheckoutSession`: the payment-link path when it is
        usable; otherwise the price-id check, then the notification (its
        failure ignored), then the promo gate, then the provider call. */
    method CreateCheckoutSession(config: Config, env: Env) returns (err: Option<string>)
      modifies this`events, this`storage, this`location
      ensures SessionEffects(config, env, err)
    {
      if orderData.None? {
        return Some(MissingOrderError);
      }
      var order := orderData.value;
      var productType := order.productType;
      var code := Trim(couponInput);
      if PaymentLinkUsable(config, productType) {
        var params := map["prefilled_email" := order.email];
        params := params["client_reference_id" := "EG-" + DecimalString(env.now)];
        if code != "" {
          params := params["prefilled_promo_code" := code];
        }
        storage := storage[PendingOrderKey := OrderJson(order)];
        location := Some(PaymentLink(config.paymentLinks[productType], params));
        return None;
      }
      if !PriceIdConfigured(config, productType) {
        return Some(ConfigError);
      }
      var priceId := config.stripePrices[productType];
      var payload, delivered := SendOrderDetailsEmail(order, code, env);
      events := events + [NotificationAttempt(payload, delivered)];
      if code != "" && code != PromoCode {
        events := events + [Alert(UnrecognizedPromoAlert)];
        return Some(InvalidPromoError);
      }
      events := events + [CheckoutRequest(priceId, order.email)];
      match env.provider {
        case None =>
          location := Some(HostedCheckout(priceId, order.email));
          err := None;
        case Some(message) =>
          if message != "" && Includes(message, "client-only integration") {
            err := Some(SetupError);
          } else {
            err := Some(message);
          }
      }
    }

    /** `handleSubmit`: disable the button, run the checkout session, and on
        an error show it and enable the button again. */
    method HandleSubmit(config: Config, env: Env) returns (ghost err: Option<string>)
      modifies this`events, this`storage, this`location, this`submitDisabled, this`paymentError
      ensures SessionEffects(config, env, err)
      ensures err.None? ==> submitDisabled && paymentError == old(paymentError)
      ensures err.Some? ==> !submitDisabled && paymentError == Some(OrElse(err.value, DefaultCheckoutError))
    {
      submitDisabled := true;
      var e := CreateCheckoutSession(config, env);
      err := e;
      if e.Some? {
        paymentError := Some(OrElse(e.value, DefaultCheckoutError));
        submitDisabled := false;
      }
    }

    /** The `beforeunload` handler: keep the (possibly promo-marked) order
        in storage unless a confirmation was recorded. */
    method BeforeUnload()
      modifies this`storage
      ensures orderData.Some? && !StoredTruthy(old(storage), ConfirmationDataKey) ==>
        storage == old(storage)[OrderDataKey := OrderJson(orderData.value)]
      ensures orderData.None? || StoredTruthy(old(storage), ConfirmationDataKey) ==> storage == old(storage)
    {
      if orderData.Some? && !StoredTruthy(storage, ConfirmationDataKey) {
        storage := storage[OrderDataKey := OrderJson(orderData.value)];
      }
    }
  }
}
