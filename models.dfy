/**
 * The rows of the four tables and the chat sender. An identifier is an
 * abstract number (the server's gen_random_uuid), a time a number of
 * nanoseconds on the server's clock.
 */
module Models {
  import opened Wrappers

  type Uuid = nat

  type Time = int

  /** A nutrition fact: energy and macros per unit. */
  datatype ProductDetails = ProductDetails(
    uuid: Uuid, name: string, ccal: int, fats: int, proteins: int, carbs: int)

  /** A ledger event: `amount` units of a product eaten by `login`. */
  datatype Record = Record(
    uuid: Uuid, productUuid: Uuid, amount: int, login: string, createdAt: Time)

  /** Per-user settings; None is a column the user never set (its default). */
  datatype UserPreferences = UserPreferences(
    login: string, noon: Option<Time>, lang: Option<string>)

  /** A catalog node: a folder when `productUuid` is None, a food item otherwise. */
  datatype UserCommonItem = UserCommonItem(
    uuid: Uuid, login: string, path: string, name: string,
    productUuid: Option<Uuid>, createdAt: Time)

  /** The sender of a chat message: a handle (possibly empty) and a numeric id. */
  datatype Sender = Sender(username: string, id: int)
}
