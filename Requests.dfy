/**
 * The requests the library screens send, reduced to what the client decides:
 * the HTTP verb, the resource addressed and the JSON body. The URL text and
 * the transport are not modelled.
 */
module Requests {
  import opened JsValues

  datatype Verb = GET | POST | PUT | DELETE

  /** `/juegos`, `/juegos/{id}`, `/reseñas`, `/reseñas/{id}` */
  datatype Target =
    | Games
    | GameItem(gameId: Value)
    | Reviews
    | ReviewItem(reviewId: Value)

  datatype Request = Request(verb: Verb, target: Target, body: Option<Record>)

  /**
   * `handleSaveJuego`: an edit is a PUT of the draft to the game's own
   * resource, a new game a POST of the draft to the collection.
   */
  function SaveGameRequest(juegoData: Record, isEdit: bool): (r: Request)
    ensures r.body == Some(juegoData)
    ensures r.verb == PUT <==> isEdit
    ensures r.verb == POST <==> !isEdit
    ensures isEdit ==> r.target == GameItem(Get(juegoData, "_id"))
    ensures !isEdit ==> r.target == Games
  {
    if isEdit then Request(PUT, GameItem(Get(juegoData, "_id")), Some(juegoData))
    else Request(POST, Games, Some(juegoData))
  }

  /** `handleUpdateGame(id, updateData)`: a PUT of the partial update to the game. */
  function UpdateGameRequest(id: string, updateData: Record): (r: Request)
    ensures r.verb == PUT && r.target == GameItem(Str(id)) && r.body == Some(updateData)
  {
    Request(PUT, GameItem(Str(id)), Some(updateData))
  }

  /** `handleDeleteJuego`: nothing is sent unless the user confirmed. */
  function DeleteGameRequest(id: string, confirmed: bool): (r: Option<Request>)
    ensures r.None? <==> !confirmed
    ensures r.Some? ==> r.value == Request(DELETE, GameItem(Str(id)), None)
  {
    if confirmed then Some(Request(DELETE, GameItem(Str(id)), None)) else None
  }

  /**
   * `handleReviewSubmit`: a review with a truthy `_id` is updated in place
   * (PUT to its resource), any other is created (POST to the collection); the
   * body is the review with `juegoId` set to the game shown.
   */
  function ReviewSubmitRequest(resenaData: Record, juegoId: Value): (r: Request)
    ensures r.verb == PUT <==> Truthy(Get(resenaData, "_id"))
    ensures r.verb == POST <==> !Truthy(Get(resenaData, "_id"))
    ensures r.verb == PUT ==> r.target == ReviewItem(Get(resenaData, "_id"))
    ensures r.verb == POST ==> r.target == Reviews
    ensures r.body.Some? && r.body.value.Keys == resenaData.Keys + {"juegoId"}
    ensures r.body.Some? && r.body.value["juegoId"] == juegoId
    ensures r.body.Some? && forall k :: k in resenaData && k != "juegoId" ==> r.body.value[k] == resenaData[k]
  {
    var body := Spread(resenaData, map["juegoId" := juegoId]);
    if Truthy(Get(resenaData, "_id")) then Request(PUT, ReviewItem(Get(resenaData, "_id")), Some(body))
    else Request(POST, Reviews, Some(body))
  }

  /** `handleDeleteReview`: nothing is sent unless the user confirmed. */
  function DeleteReviewRequest(reviewId: Value, confirmed: bool): (r: Option<Request>)
    ensures r.None? <==> !confirmed
    ensures r.Some? ==> r.value == Request(DELETE, ReviewItem(reviewId), None)
  {
    if confirmed then Some(Request(DELETE, ReviewItem(reviewId), None)) else None
  }
}
