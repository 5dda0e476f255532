/** The backend proxy and the client services composed: what the page gets
    for each combination of API key and upstream outcome. The glue is the
    HTTP client's rule for settling a request. */
module Integration {

  import opened Options
  import opened Json
  import opened ExternalRoutes
  import opened ExternalApi

  /** How an axios request settles under its default `validateStatus`: a 2xx
      reply resolves with its body; any other reply rejects carrying it, and
      no reply at all rejects without one. */
  function Receive(reply: Option<Response>): (o: Outcome)
    ensures o.Resolved? <==> reply.Some? && 200 <= reply.value.status < 300
    ensures o.Resolved? ==> o.data == reply.value.body
    ensures o.Rejected? ==> o.response == reply
  {
    if reply.Some? && 200 <= reply.value.status < 300 then Resolved(reply.value.body)
    else Rejected(reply)
  }

  /** The backend's own upstream call settles by the same rule, so an
      upstream error reply never has a 2xx status. */
  predicate SettledByAxios(upstream: Upstream) {
    upstream.HttpError? ==> !(200 <= upstream.status < 300)
  }

  /** The page gets live animal data only when the key is set and the
      upstream answered; in every other case it gets the mock for `name`. */
  lemma AnimalLookupEndToEnd(apiKey: string, name: string, upstream: Upstream)
    requires SettledByAxios(upstream)
    ensures GetAnimalByName(name, Receive(Some(AnimalRoute(apiKey, name, upstream).response)))
              == if Configured(apiKey) && upstream.Answered? then upstream.body else MockAnimalData(name)
  {
  }

  /** Plant search: live data when the key is set and the upstream
      answered, otherwise the mock for `query`. */
  lemma PlantSearchEndToEnd(apiKey: string, query: string, upstream: Upstream)
    requires SettledByAxios(upstream)
    ensures SearchPlants(query, Receive(Some(PlantSearchRoute(apiKey, query, upstream).response)))
              == if Configured(apiKey) && upstream.Answered? then upstream.body else MockPlantData(query)
  {
  }

  /** Plant details: live data when the key is set and the upstream
      answered, otherwise `null`; never a mock. */
  lemma PlantByIdEndToEnd(apiKey: string, id: string, upstream: Upstream)
    requires SettledByAxios(upstream)
    ensures GetPlantById(id, Receive(Some(PlantByIdRoute(apiKey, id, upstream).response)))
              == if Configured(apiKey) && upstream.Answered? then upstream.body else Null
  {
  }

  /** Without an animal key the page shows the fixed axolotl record for
      `"axolotl"`, and no upstream request is made. */
  lemma AxolotlWithoutKey(upstream: Upstream)
    ensures AnimalRoute("", "axolotl", upstream).requests == []
    ensures GetAnimalByName("axolotl", Receive(Some(AnimalRoute("", "axolotl", upstream).response)))
              == Arr([AXOLOTL])
  {
  }

  /** Without a plant key, searching `"mangrove"` shows the four mock
      mangroves. */
  lemma MangroveWithoutKey(upstream: Upstream)
    ensures SearchPlants("mangrove", Receive(Some(PlantSearchRoute("", "mangrove", upstream).response)))
              == MOCK_MANGROVES
    ensures |MOCK_MANGROVES.members[0].1.items| == 4
  {
    assert ToLower("mangrove")[0..4] == "mang";
    assert OccursAt(ToLower("mangrove"), "mang", 0);
  }

  /** Without a plant key, searching `"cactus"` shows no plants. */
  lemma CactusWithoutKey(upstream: Upstream)
    ensures SearchPlants("cactus", Receive(Some(PlantSearchRoute("", "cactus", upstream).response)))
              == NO_PLANTS
  {
    assert ToLower("cactus") == "cactus";
    assert !Includes("cactus", "mang");
  }
}

/** The client store loaded from the backend's listings: its lookups give
    the answers the backend's own lookups give. */
module MuseumIntegration {

  import opened Options
  import opened Dataset
  import opened Envelope
  import opened HttpStatus
  import opened RoomsController
  import opened ExhibitsController
  import opened MuseumStore

  /** After `fetchRooms` receives the `GET /rooms` listing, the store's
      `getRoomById` finds a room exactly when `GET /rooms/:id` answers 200,
      and it is the same room. */
  method RoomLookupAgrees(dataset: seq<Record>, id: string) returns (held: Option<Record>, reply: Reply)
    ensures held.Some? <==> reply.status == OK
    ensures held.Some? ==> reply.body == Item(held.value)
    ensures held.None? ==> reply.body == Failure(ROOM_NOT_FOUND)
  {
    var store := new Store();
    store.FetchRooms(Fetched(GetAllRooms(dataset).body.data));
    held := store.GetRoomById(id);
    reply := GetRoomById(dataset, id);
  }

  /** After `fetchExhibits` receives the `GET /exhibits` listing, the
      store's `getExhibitsByRoom` gives the `data` of
      `GET /exhibits/room/:roomId`. */
  method ExhibitsByRoomAgrees(dataset: seq<Record>, roomId: string)
    returns (held: seq<Record>, reply: Reply)
    ensures reply.body.Listing? && held == reply.body.data && reply.body.count == |held|
  {
    var store := new Store();
    store.FetchExhibits(Fetched(GetAllExhibits(dataset).body.data));
    held := store.GetExhibitsByRoom(roomId);
    reply := GetExhibitsByRoom(dataset, roomId);
  }
}
