/**
 * What a handler sends, as a value: the HTTP calls themselves are not
 * modelled, only the request a handler would issue (its target, payload and
 * Authorization header) and whether the server accepted it.
 */
module Requests {
  import opened Wrappers
  import opened JsValues

  /** How the awaited request ended: resolved, or rejected (network or server error). */
  datatype Outcome = Succeeded | Failed

  const BearerPrefix: string := "Bearer "

  /**
   * The header value `Bearer ${token}`: a template literal renders a null
   * token as the text "null", so an absent token still yields a header.
   */
  function BearerHeader(token: Option<string>): (h: string)
    ensures |h| >= |BearerPrefix| && h[..|BearerPrefix|] == BearerPrefix
    ensures token.Some? ==> h[|BearerPrefix|..] == token.value
    ensures token.None? ==> h[|BearerPrefix|..] == "null"
  {
    BearerPrefix + match token { case Some(t) => t case None => "null" }
  }

  /** A save issued by one of the management forms. */
  datatype SaveRequest<P> =
    | Add(payload: P, authorization: string)
    | Update(id: int, payload: P, authorization: string)

  /**
   * The save decision shared by the three management forms:
   * `if (editMode && currentId)` updates the current row, anything else adds.
   * A current id of null or 0 is falsy and falls through to an add.
   */
  function DecideSave<P>(editMode: bool, currentId: Option<int>, payload: P, token: Option<string>): (r: SaveRequest<P>)
    ensures r.payload == payload && r.authorization == BearerHeader(token)
    ensures r.Update? <==> editMode && currentId.Some? && currentId.value != 0
    ensures r.Update? ==> r.id == currentId.value
  {
    if editMode && TruthyId(currentId) then Update(currentId.value, payload, BearerHeader(token))
    else Add(payload, BearerHeader(token))
  }

  datatype DeleteRequest = Delete(id: int, authorization: string)

  /** What a delete handler does: refuses locally without sending, or sends and maybe re-fetches the list. */
  datatype DeleteEffect =
    | RefusedMissingToken
    | Sent(request: DeleteRequest, refetch: bool)
}
