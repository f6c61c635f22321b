/**
 * The purchase-history page: loading the signed-in user's purchases joined
 * with their shows, and the status and quantity texts shown per row.
 */
module HistoryPage {
  import opened Wrappers
  import opened CartTypes

  /** Where the page sends a visitor who is not signed in. */
  const LOGIN_REDIRECT := "/login?redirect=/historial"

  /** The show fields the purchase query joins in. */
  datatype JoinedShow = JoinedShow(
    nombreFuncion: string,
    descripcionFuncion: Option<string>,
    imagenFuncion: Option<string>,
    valorEntradaFuncion: Option<int>)

  /** A row of the query: a purchase and its show, missing when the join finds none. */
  datatype PurchaseRow = PurchaseRow(purchase: Purchase, theatreFunctions: Option<JoinedShow>)

  /** The query's answer: an error, or data that may itself be null. */
  datatype QueryResult = QueryError | QueryData(data: Option<seq<PurchaseRow>>)

  /**
   * The page after loading: where it redirected, which user the purchase
   * query was issued for, the rows it shows and whether the spinner is up.
   */
  datatype HistoryState = HistoryState(
    redirect: Option<string>,
    queriedUser: Option<string>,
    purchases: seq<PurchaseWithDetails>,
    loading: bool)

  /** JavaScript's `text || null`: an empty text is falsy and becomes null. */
  function OrNull(text: Option<string>): (r: Option<string>)
    ensures r.Some? <==> text.Some? && text.value != []
    ensures r.Some? ==> r == text
  {
    if text.Some? && text.value != [] then text else None
  }

  /** The transform of one row: the purchase kept whole, the show's fields or their defaults. */
  function Details(row: PurchaseRow): (r: PurchaseWithDetails)
    ensures r.purchase == row.purchase
    ensures row.theatreFunctions.None? ==>
      r.nombreFuncion == [] && r.descripcionFuncion.None? && r.imagenFuncion.None? && r.valorEntradaFuncion == 0
    ensures row.theatreFunctions.Some? ==>
      && r.nombreFuncion == row.theatreFunctions.value.nombreFuncion
      && r.descripcionFuncion == OrNull(row.theatreFunctions.value.descripcionFuncion)
      && r.imagenFuncion == OrNull(row.theatreFunctions.value.imagenFuncion)
      && r.valorEntradaFuncion == row.theatreFunctions.value.valorEntradaFuncion.GetOr(0)
  {
    match row.theatreFunctions
    case None => PurchaseWithDetails(row.purchase, "", None, None, 0)
    case Some(show) =>
      PurchaseWithDetails(row.purchase, show.nombreFuncion, OrNull(show.descripcionFuncion),
                          OrNull(show.imagenFuncion), show.valorEntradaFuncion.GetOr(0))
  }

  /** `data.map(...)`: one row out per row in, in the same order. */
  function DetailsOfRows(rows: seq<PurchaseRow>): (r: seq<PurchaseWithDetails>)
    ensures |r| == |rows|
    ensures forall i :: 0 <= i < |rows| ==> r[i].purchase == rows[i].purchase
    ensures forall i :: 0 <= i < |rows| && rows[i].theatreFunctions.None? ==>
      r[i] == PurchaseWithDetails(rows[i].purchase, "", None, None, 0)
    ensures forall i :: 0 <= i < |rows| && rows[i].theatreFunctions.Some? ==>
      var show := rows[i].theatreFunctions.value;
      && r[i].nombreFuncion == show.nombreFuncion
      && r[i].valorEntradaFuncion == show.valorEntradaFuncion.GetOr(0)
      && r[i].descripcionFuncion == OrNull(show.descripcionFuncion)
      && r[i].imagenFuncion == OrNull(show.imagenFuncion)
  {
    if rows == [] then [] else [Details(rows[0])] + DetailsOfRows(rows[1..])
  }

  /** `data?.map(...) || []`: null data gives no rows. */
  function TransformRows(data: Option<seq<PurchaseRow>>): (r: seq<PurchaseWithDetails>)
    ensures data.None? ==> r == []
    ensures data.Some? ==> r == DetailsOfRows(data.value)
  {
    match data
    case None => []
    case Some(rows) => DetailsOfRows(rows)
  }

  /**
   * `loadPurchases`: `user` is the signed-in user's id, if any, and `answer`
   * the backend's answer to the purchase query for that user. Without a user
   * the page redirects, issues no query and leaves its spinner up; on a query
   * error it shows no purchases.
   */
  function LoadPurchases(user: Option<string>, answer: QueryResult): (r: HistoryState)
    ensures user.None? ==> r == HistoryState(Some(LOGIN_REDIRECT), None, [], true)
    ensures user.Some? ==> r.redirect == None && r.queriedUser == user && !r.loading
    ensures user.Some? && answer.QueryData? ==> r.purchases == TransformRows(answer.data)
    ensures answer.QueryError? ==> r.purchases == []
  {
    match user
    case None => HistoryState(Some(LOGIN_REDIRECT), None, [], true)
    case Some(id) =>
      match answer
      case QueryError => HistoryState(None, user, [], false)
      case QueryData(data) => HistoryState(None, user, TransformRows(data), false)
  }

  /** Without a user, what the backend would answer makes no difference: no query is run. */
  lemma NoUserNoQuery(a: QueryResult, b: QueryResult)
    ensures LoadPurchases(None, a) == LoadPurchases(None, b)
    ensures LoadPurchases(None, a).queriedUser == None
  {
  }

  /** `translateStatus`: the Spanish text of a known status, any other status unchanged. */
  function TranslateStatus(status: string): (r: string)
    ensures status == COMPLETED ==> r == "Completado"
    ensures status == PENDING ==> r == "Pendiente"
    ensures status == CANCELLED ==> r == "Cancelado"
    ensures status !in {COMPLETED, PENDING, CANCELLED} ==> r == status
  {
    if status == COMPLETED then "Completado"
    else if status == PENDING then "Pendiente"
    else if status == CANCELLED then "Cancelado"
    else status
  }

  /** `getStatusColor`: the style class of a known status (named by its key), '' for any other. */
  function StatusClass(status: string): (r: string)
    ensures r == [] <==> status !in {COMPLETED, PENDING, CANCELLED}
  {
    if status == COMPLETED then "statusCompleted"
    else if status == PENDING then "statusPending"
    else if status == CANCELLED then "statusCancelled"
    else ""
  }

  /** A status is shown as itself exactly when it is not one of the three known ones. */
  lemma TranslateFixesOnlyUnknown(status: string)
    ensures TranslateStatus(status) == status <==> status !in {COMPLETED, PENDING, CANCELLED}
  {
  }

  /** The word after the quantity: "entradas" for more than one ticket, "entrada" otherwise. */
  function TicketWord(quantity: int): (r: string)
    ensures r == "entradas" <==> quantity > 1
    ensures r == "entrada" <==> quantity <= 1
  {
    "entrada" + if quantity > 1 then "s" else ""
  }
}
