/** The backend's proxy to the two third-party APIs (`/api/external`): each
    handler decides the reply from whether its API key is configured and
    from what its single upstream request produced. The request itself is
    abstracted to its outcome, and the key is a parameter (the source reads
    it once from the environment, with `''` when unset). */
module ExternalRoutes {

  import opened Options
  import opened Json
  import opened HttpStatus

  /** What the one axios call to the upstream API ended with. */
  datatype Upstream =
    | Answered(body: Json)                // a 2xx reply: `response.data`
    | HttpError(status: int, data: Json)  // `error.response` is set
    | NoResponse                          // no reply: timeout, DNS, refused connection

  /** The upstream requests a handler issues, with the term it looks up. */
  datatype Request =
    | AnimalsByName(name: string)
    | PlantsSearch(q: string)
    | PlantDetails(id: string)

  /** A handler's reply together with the upstream requests it made. */
  datatype Handled = Handled(response: Response, requests: seq<Request>)

  /** An API key is configured when it is not the empty string. */
  predicate Configured(apiKey: string) {
    apiKey != ""
  }

  /** `{error, useMock: true}`, or `{error}` alone when `useMock` is false:
      the source never writes `useMock: false`, it leaves the member out. */
  function ErrorBody(error: string, useMock: bool): (j: Json)
    ensures Get(j, "error") == Some(Str(error))
    ensures Get(j, "useMock") == if useMock then Some(Bool(true)) else None
  {
    var members := [("error", Str(error))] + if useMock then [("useMock", Bool(true))] else [];
    assert Lookup(members[1..], "useMock") == if useMock then Some(Bool(true)) else None;
    Obj(members)
  }

  /** `{error, status, message, useMock}` for an upstream error reply; again
      without `useMock` when it is false. */
  function UpstreamErrorBody(error: string, status: int, data: Json, useMock: bool): (j: Json)
    ensures Get(j, "error") == Some(Str(error))
    ensures Get(j, "status") == Some(Num(status))
    ensures Get(j, "message") == Some(data)
    ensures Get(j, "useMock") == if useMock then Some(Bool(true)) else None
  {
    var members := [("error", Str(error)), ("status", Num(status)), ("message", data)]
                   + if useMock then [("useMock", Bool(true))] else [];
    assert members[2..][1..] == members[3..];
    assert members[1..][1..] == members[2..];
    assert Lookup(members[3..], "useMock") == if useMock then Some(Bool(true)) else None;
    assert Lookup(members[2..], "message") == Some(data);
    assert Lookup(members[1..], "message") == Some(data);
    assert Lookup(members[1..], "status") == Some(Num(status));
    Obj(members)
  }

  /** The `catch` of the animal and plant-search handlers, and their success
      path: mirror the upstream status and suggest the mock on any error. */
  function MockableReply(upstream: Upstream, apiError: string, fetchFailure: string): (r: Response)
    ensures upstream.Answered? ==> r == Response(OK, upstream.body)
    ensures upstream.HttpError? ==> r.status == upstream.status
                                    && Get(r.body, "status") == Some(Num(upstream.status))
                                    && Get(r.body, "message") == Some(upstream.data)
                                    && Get(r.body, "error") == Some(Str(apiError))
    ensures upstream.NoResponse? ==> r.status == INTERNAL_ERROR
                                     && Get(r.body, "error") == Some(Str(fetchFailure))
    ensures !upstream.Answered? ==> SuggestsMock(r.body)
  {
    match upstream
    case Answered(body) => Response(OK, body)
    case HttpError(status, data) => Response(status, UpstreamErrorBody(apiError, status, data, true))
    case NoResponse => Response(INTERNAL_ERROR, ErrorBody(fetchFailure, true))
  }

  /** `GET /api/external/animals/:name`. */
  function AnimalRoute(apiKey: string, name: string, upstream: Upstream): (h: Handled)
    ensures h.requests == (if Configured(apiKey) then [AnimalsByName(name)] else [])
    ensures !Configured(apiKey) ==> h.response.status == UNAVAILABLE && SuggestsMock(h.response.body)
    ensures Configured(apiKey) && upstream.Answered? ==> h.response == Response(OK, upstream.body)
    ensures Configured(apiKey) && upstream.HttpError? ==>
              h.response.status == upstream.status
              && Get(h.response.body, "message") == Some(upstream.data)
              && SuggestsMock(h.response.body)
    ensures Configured(apiKey) && upstream.NoResponse? ==>
              h.response.status == INTERNAL_ERROR && SuggestsMock(h.response.body)
  {
    if !Configured(apiKey) then
      Handled(Response(UNAVAILABLE, ErrorBody("Animals API key not configured", true)), [])
    else
      Handled(MockableReply(upstream, "Error from Animals API", "Failed to fetch animal data"),
              [AnimalsByName(name)])
  }

  /** `GET /api/external/plants/search?q=`. */
  function PlantSearchRoute(apiKey: string, q: string, upstream: Upstream): (h: Handled)
    ensures h.requests == (if Configured(apiKey) then [PlantsSearch(q)] else [])
    ensures !Configured(apiKey) ==> h.response.status == UNAVAILABLE && SuggestsMock(h.response.body)
    ensures Configured(apiKey) && upstream.Answered? ==> h.response == Response(OK, upstream.body)
    ensures Configured(apiKey) && upstream.HttpError? ==>
              h.response.status == upstream.status
              && Get(h.response.body, "message") == Some(upstream.data)
              && SuggestsMock(h.response.body)
    ensures Configured(apiKey) && upstream.NoResponse? ==>
              h.response.status == INTERNAL_ERROR && SuggestsMock(h.response.body)
  {
    if !Configured(apiKey) then
      Handled(Response(UNAVAILABLE, ErrorBody("Trefle API key not configured", true)), [])
    else
      Handled(MockableReply(upstream, "Error from Trefle API", "Failed to fetch plant data"),
              [PlantsSearch(q)])
  }

  /** `GET /api/external/plants/:id`: like the other two, except that no
      error body carries `useMock` and a missing upstream reply is a 404. */
  function PlantByIdRoute(apiKey: string, id: string, upstream: Upstream): (h: Handled)
    ensures h.requests == (if Configured(apiKey) then [PlantDetails(id)] else [])
    ensures !Configured(apiKey) ==> h.response.status == UNAVAILABLE
    ensures Configured(apiKey) && upstream.Answered? ==> h.response == Response(OK, upstream.body)
    ensures Configured(apiKey) && upstream.HttpError? ==>
              h.response.status == upstream.status
              && Get(h.response.body, "message") == Some(upstream.data)
    ensures Configured(apiKey) && upstream.NoResponse? ==>
              h.response == Response(NOT_FOUND, ErrorBody("Plant not found", false))
    ensures !Configured(apiKey) || !upstream.Answered? ==> Get(h.response.body, "useMock") == None
  {
    if !Configured(apiKey) then
      Handled(Response(UNAVAILABLE, ErrorBody("Trefle API key not configured", false)), [])
    else
      var response := match upstream
        case Answered(body) => Response(OK, body)
        case HttpError(status, data) =>
          Response(status, UpstreamErrorBody("Error from Trefle API", status, data, false))
        case NoResponse => Response(NOT_FOUND, ErrorBody("Plant not found", false));
      Handled(response, [PlantDetails(id)])
  }

  /** The animal and plant-search handlers take the same decisions: same
      status, same mock suggestion, one request at most. */
  lemma AnimalAndSearchAgree(apiKey: string, name: string, q: string, upstream: Upstream)
    ensures AnimalRoute(apiKey, name, upstream).response.status
              == PlantSearchRoute(apiKey, q, upstream).response.status
    ensures SuggestsMock(AnimalRoute(apiKey, name, upstream).response.body)
              == SuggestsMock(PlantSearchRoute(apiKey, q, upstream).response.body)
    ensures |AnimalRoute(apiKey, name, upstream).requests| <= 1
  {
  }

  /** Plant-by-id answers with the plant-search status except when the
      upstream gave no reply: 404 there, where search says 500. */
  lemma PlantByIdDiffersOnlyWithoutReply(apiKey: string, q: string, id: string, upstream: Upstream)
    ensures PlantByIdRoute(apiKey, id, upstream).response.status
              == if Configured(apiKey) && upstream.NoResponse? then NOT_FOUND
                 else PlantSearchRoute(apiKey, q, upstream).response.status
  {
  }
}
