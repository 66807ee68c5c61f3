/** The order record that the order form stores in session storage and the
    checkout page reads back, and the session storage itself. */
module Orders {

  datatype Option<T> = None | Some(value: T)

  /** One entry of `albumSongs`: the details given for song `songNumber`. */
  datatype AlbumSong = AlbumSong(songNumber: nat, title: string, story: string, language: string)

  /** The record serialised under the `orderData` key. `albumSongs` is
      `None` when the property is absent; `promoCode` is set only by the
      checkout page once the promo code is accepted. */
  datatype Order = Order(
    productType: string,
    recipientName: string,
    occasion: string,
    storyThemes: string,
    artworkInspiration: string,
    genre: string,
    tone: string,
    languagePreference: string,
    email: string,
    delivery: string,
    albumSongs: Option<seq<AlbumSong>>,
    promoCode: Option<string>)

  /** What a session-storage key holds: a serialised order, or some other
      JSON text (such as `confirmationData`) whose content does not matter
      here. */
  datatype StoredItem = OrderJson(order: Order) | OtherJson(text: string)

  type SessionStorage = map<string, StoredItem>

  const OrderDataKey := "orderData"
  const PendingOrderKey := "pendingOrder"
  const ConfirmationDataKey := "confirmationData"
}
