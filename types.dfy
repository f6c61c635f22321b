/** The `theatre_functions` table row as the catalogue and the cart read it. */
module DatabaseTypes {
  import opened Wrappers

  /** Price and description are nullable columns; so is the image. */
  datatype TheatreFunction = TheatreFunction(
    id: int,
    nombreFuncion: string,
    descripcionFuncion: Option<string>,
    valorEntradaFuncion: Option<int>,
    imagenFuncion: Option<string>)
}

/** Cart lines and purchase records. */
module CartTypes {
  import opened Wrappers

  /** One cart line per show: a copy of the show's display fields, a unit price and a quantity. */
  datatype CartItem = CartItem(
    id: int,
    nombreFuncion: string,
    valorEntradaFuncion: int,
    imagenFuncion: Option<string>,
    descripcionFuncion: Option<string>,
    quantity: int)

  /** The three values of a purchase's status column. */
  const COMPLETED := "completed"
  const PENDING := "pending"
  const CANCELLED := "cancelled"

  /**
   * A row of the `purchases` table. The status is kept as the text the
   * backend returns, since the history page also handles unknown values.
   */
  datatype Purchase = Purchase(
    id: int,
    userId: string,
    functionId: int,
    quantity: int,
    totalPrice: int,
    purchaseDate: string,
    status: string)

  /** A purchase joined with the display fields of its show. */
  datatype PurchaseWithDetails = PurchaseWithDetails(
    purchase: Purchase,
    nombreFuncion: string,
    descripcionFuncion: Option<string>,
    imagenFuncion: Option<string>,
    valorEntradaFuncion: int)

  /** A purchase as the client inserts it: the backend assigns id and date. */
  datatype PurchaseInsert = PurchaseInsert(
    userId: string,
    functionId: int,
    quantity: int,
    totalPrice: int,
    status: string)
}
