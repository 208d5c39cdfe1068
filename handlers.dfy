/** The route handlers of backend/app.py, each a function from the store
    and the already parsed request to the response and the store after it. */
module Handlers {
  import opened Wrappers
  import opened PyJson
  import opened Sequences
  import opened Envelope
  import opened ShowStore
  import opened ShowFilter

  /** A handled request: the response and the collection afterwards. */
  datatype Reply = Reply(response: Response, store: Store)

  const NotFoundMessage: string := "No show with this id exists"
  const DeletedMessage: string := "Show deleted"
  const MissingFieldsMessage: string := "You must input the show name and the number of episodes seen"

  /** The reply a handler gives for a 404: no payload, nothing changed. */
  function NotFound(store: Store): Reply
  {
    Reply(Response(Body(404, false, NotFoundMessage, JNull), 404), store)
  }

  /** The reply `create_new_show` gives for a 422: no payload, nothing changed. */
  function MissingFields(store: Store): Reply
  {
    Reply(Response(Body(422, false, MissingFieldsMessage, JNull), 422), store)
  }

  /** `create_response(data, status, message)` after the store became `store`. */
  function Respond(data: Json, status: int, message: string, store: Store): (r: Result<Reply, PyError>)
    ensures r.Ok? <==> data.JObject? || data.JNull?
    ensures r.Ok? ==> r.value.store == store && r.value.response.status == status
  {
    match CreateResponse(data, status, message)
    case Err(e) => Err(e)
    case Ok(resp) => Ok(Reply(resp, store))
  }

  /** The payload `{"shows": [...]}` of the list handler. */
  function ShowsPayload(shows: seq<Show>): (r: Json)
    ensures r.JObject? && r.obj.Keys == {"shows"}
    ensures r.obj["shows"].JList? && |r.obj["shows"].items| == |shows|
    ensures forall i :: 0 <= i < |shows| ==> r.obj["shows"].items[i] == ShowToJson(shows[i])
  {
    JObject(map["shows" := JList(ShowsToJson(shows))])
  }

  /** `GET /shows[?minEpisodes=N]`. `minEpisodes` is `None` when the
      parameter is absent, and otherwise the outcome of `int(N)`: the number,
      or the `ValueError` it raises, which the comprehension meets lazily. */
  function GetAllShows(store: Store, minEpisodes: Option<Result<int, PyError>>): (r: Result<Reply, PyError>)
    ensures minEpisodes.None? ==>
      r == Ok(Reply(Response(Body(200, true, "", ShowsPayload(store)), 200), store))
    ensures minEpisodes.Some? && minEpisodes.value.Ok? ==> (r.Ok? <==> Comparable(store))
    ensures minEpisodes.Some? && minEpisodes.value.Err? ==> (r.Ok? <==> store == [])
    ensures minEpisodes.Some? && FilterWithThreshold(store, minEpisodes.value).Err? ==>
      r == Err(FilterWithThreshold(store, minEpisodes.value).error)
    ensures minEpisodes.Some? && FilterWithThreshold(store, minEpisodes.value).Ok? ==>
      r == Ok(Reply(Response(Body(200, true, "", ShowsPayload(FilterWithThreshold(store, minEpisodes.value).value)), 200), store))
  {
    match minEpisodes
    case None => Respond(ShowsPayload(store), 200, "", store)
    case Some(Ok(n)) =>
      FilterFailsOnFirstIncomparable(store, n);
      RespondFiltered(FilterWithThreshold(store, Ok(n)), store)
    case Some(Err(e)) => RespondFiltered(FilterWithThreshold(store, Err(e)), store)
  }

  /** The list handler's answer once the comprehension has run. */
  function RespondFiltered(filtered: Result<seq<Show>, PyError>, store: Store): Result<Reply, PyError>
  {
    match filtered
    case Err(e) => Err(e)
    case Ok(kept) => Respond(ShowsPayload(kept), 200, "", store)
  }

  /** A threshold that does not parse as an integer is harmless on an empty
      store, which answers 200 with no shows. */
  lemma BadThresholdOnEmptyStore(e: PyError)
    ensures GetAllShows([], Some(Err(e))) == Ok(Reply(Response(Body(200, true, "", ShowsPayload([])), 200), []))
  {
  }

  /** With a threshold the list answered is exactly the stored records that
      pass it, in stored order, each as often as it is stored. */
  lemma GetAllShowsFiltered(store: Store, n: int)
    requires Comparable(store)
    ensures exists kept ::
      GetAllShows(store, Some(Ok(n))) == Ok(Reply(Response(Body(200, true, "", ShowsPayload(kept)), 200), store))
      && (forall s :: s in kept ==> Keeps(s, n))
      && (forall s :: multiset(kept)[s] == (if Keeps(s, n) then multiset(store)[s] else 0))
      && IsSubsequence(kept, store)
  {
    FilterFailsOnFirstIncomparable(store, n);
    var kept := FilterMinEpisodes(store, n).value;
    FilterSound(store, n);
    FilterComplete(store, n);
    FilterIsSubsequence(store, n);
    assert GetAllShows(store, Some(Ok(n))) == Ok(Reply(Response(Body(200, true, "", ShowsPayload(kept)), 200), store));
  }

  /** `DELETE /shows/<id>`. */
  function DeleteShow(store: Store, id: int): (r: Result<Reply, PyError>)
    ensures r.Ok?
    ensures !HasId(store, id) ==> r.value == NotFound(store)
    ensures HasId(store, id) ==>
      r.value == Reply(Response(Body(200, true, DeletedMessage, JNull), 200), DeleteById(store, id))
    ensures !HasId(r.value.store, id)
  {
    if GetById(store, id).None? then Respond(JNull, 404, NotFoundMessage, store)
    else Respond(JNull, 200, DeletedMessage, DeleteById(store, id))
  }

  /** `GET /shows/<id>`. */
  function GetSingleShow(store: Store, id: int): (r: Result<Reply, PyError>)
    ensures r.Ok? && r.value.store == store
    ensures !HasId(store, id) ==> r.value == NotFound(store)
    ensures HasId(store, id) ==>
      exists s :: s in store && s.id == id &&
        r.value.response == Response(Body(200, true, "", ShowToJson(s)), 200)
  {
    if GetById(store, id).None? then Respond(JNull, 404, NotFoundMessage, store)
    else Respond(ShowToJson(GetById(store, id).value), 200, "", store)
  }

  /** The guard of `POST /shows` as written: `hasattr` is asked about the
      body's attributes, and only when it reports `name` present is the
      undefined name `FALSE` reached, which raises `NameError`. */
  function CreateNewShowAsWritten(store: Store, body: Json): (r: Result<Reply, PyError>)
    ensures !HasAttr(body, "name") ==> r == Ok(MissingFields(store))
    ensures HasAttr(body, "name") ==> r == Err(NameError("FALSE"))
  {
    if HasAttr(body, "name") == false then Respond(JNull, 422, MissingFieldsMessage, store)
    else Err(NameError("FALSE"))
  }

  /** As written, every body is refused with 422 and nothing is stored,
      because no value parsed from JSON has an attribute called `name`. */
  lemma AsWrittenRejectsEveryBody(store: Store, body: Json)
    ensures CreateNewShowAsWritten(store, body) == Ok(MissingFields(store))
  {
    NoJsonValueHasShowAttributes(body);
  }

  /** The body carries both required keys. */
  predicate HasRequiredFields(body: Json)
  {
    body.JObject? && "name" in body.obj && "episodes_seen" in body.obj
  }

  /** `POST /shows` with the guard its message describes: a body without
      `name` or `episodes_seen` is refused with 422 and nothing is stored;
      otherwise the body is stored under a fresh id and returned. */
  function CreateNewShow(store: Store, body: Json): (r: Result<Reply, PyError>)
    ensures r.Ok?
    ensures !HasRequiredFields(body) ==> r.value == MissingFields(store)
    ensures HasRequiredFields(body) ==>
      exists s: Show :: s.fields == body.obj && !HasId(store, s.id) && r.value.store == store + [s] &&
        r.value.response == Response(Body(200, true, "", ShowToJson(s)), 200)
  {
    if !HasRequiredFields(body) then Respond(JNull, 422, MissingFieldsMessage, store)
    else
      var c := Create(store, body.obj);
      Respond(ShowToJson(c.record), 200, "", c.store)
  }

  /** Every body that carries both fields, such as
      `{"name": "Friends", "episodes_seen": 3}`, is refused with 422 by the
      guard as written and accepted with 200 by the corrected one. */
  lemma AsWrittenRefusesValidBody(store: Store, body: Json)
    requires HasRequiredFields(body)
    ensures CreateNewShowAsWritten(store, body).Ok?
    ensures CreateNewShowAsWritten(store, body).value.response.status == 422
    ensures CreateNewShow(store, body).value.response.status == 200
  {
    AsWrittenRejectsEveryBody(store, body);
  }

  /** POST then GET by the returned id answers the record created. */
  lemma GetAfterCreateNewShow(store: Store, body: Json)
    requires UniqueIds(store)
    requires HasRequiredFields(body)
    ensures var created := CreateNewShow(store, body).value;
      created.response.body.result.JObject? && "id" in created.response.body.result.obj &&
      created.response.body.result.obj["id"].JInt? &&
      GetSingleShow(created.store, created.response.body.result.obj["id"].i).value.response ==
        created.response
  {
    var c := Create(store, body.obj);
    GetAfterCreate(store, body.obj);
    assert HasId(c.store, c.record.id) by { assert c.store[|store|] == c.record; }
  }

  /** DELETE then GET by the same id answers 404. */
  lemma GetAfterDeleteShow(store: Store, id: int)
    ensures GetSingleShow(DeleteShow(store, id).value.store, id).value.response == NotFound(DeleteShow(store, id).value.store).response
  {
  }

  /** The handlers keep ids unique. */
  lemma HandlersKeepUniqueIds(store: Store, id: int, body: Json)
    requires UniqueIds(store)
    ensures UniqueIds(DeleteShow(store, id).value.store)
    ensures UniqueIds(CreateNewShow(store, body).value.store)
    ensures UniqueIds(GetSingleShow(store, id).value.store)
  {
    DeleteByIdKeepsUniqueIds(store, id);
    if HasRequiredFields(body) {
      CreateKeepsUniqueIds(store, body.obj);
    }
  }
}
