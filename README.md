# Submerged Territories: data access and fallback layer

This project is a Dafny model of the read-only data layer of the "Museo Virtual del Agua" web
application. It covers four parts:

- **The backend controllers** for rooms, content and exhibits. They answer from three static JSON
  arrays. Each offers a listing in a `{success, count, data}` envelope, plus either a find-by-id
  (404 when absent) or a filter-by-field (an empty result is still a success).
- **The backend proxy** to the animal API and the Trefle plant API. It maps key presence and the
  upstream outcome to a status, a body and a `useMock` hint.
- **The client services** that call the proxy. When a call fails, they fall back to fixed mock
  tables: an exact-key animal table, and a case-insensitive `"mang"` test for plants. Plant
  details have no fallback and give `null`.
- **The client `museum` store.** It holds the fetched collections, the selected room and a
  shared `loading`/`error` pair, and offers count and lookup getters.

Layout, one module per source file plus shared parts:

- `options.dfy` (`Options`): the optional value (`undefined`/`null`).
- `dataset.dfy` (`Dataset`): records reduced to `id`, `type` (named `kind`, since `type` is
  reserved) and `roomId`. It also holds `Array.find` and `Array.filter` on exact field equality,
  with their properties.
- `http_status.dfy` (`HttpStatus`): the status codes the backend answers with.
- `envelope.dfy` (`Envelope`): the controllers' JSON envelope and status.
- `json.dfy` (`Json`): JSON values, property access, JavaScript truthiness and HTTP replies.
- `rooms_controller.dfy`, `content_controller.dfy`, `exhibits_controller.dfy`: the three
  controllers.
- `external_routes.dfy` (`ExternalRoutes`): the three proxy handlers. Each upstream request is
  replaced by its outcome: `Answered(body)`, `HttpError(status, data)` or `NoResponse`.
- `external_api.dfy` (`ExternalApi`): the mock tables, written out in full, and the three
  service calls.
- `museum_store.dfy` (`MuseumStore`): the store as a class. Each fetch action is `BeginFetch`
  followed by `Settle…` of its own collection.
- `integration.dfy` (`Integration`, `MuseumIntegration`): the proxy and the services composed
  end to end, and the store checked against the controllers.

Two facts about the code shape the model:

- Without its API key, the proxy answers the animal and plant-search routes with HTTP 503 and
  `useMock: true` (backend/routes/external.js:22-27, 69-74). It answers plant details with 503
  and no `useMock` member (backend/routes/external.js:116-120).
- The client falls back to the mock on every failure. Its `useMock` branch and its default
  branch return the same thing (frontend/src/services/externalApi.js:37-45, 123-130), and
  `GetAnimalByName` and `SearchPlants` state this.

## Model

| member | source | states |
|---|---|---|
| Dataset.Find | backend/controllers/roomsController.js:31 | `None` exactly when no record's field equals the value; otherwise the record at the first index whose field equals it (exact, case-sensitive string equality) |
| Dataset.Filter | backend/controllers/contentController.js:31 | every returned record matches; the result is never longer than the data |
| Dataset.FilterCount | backend/controllers/contentController.js:31 | each matching record keeps its number of occurrences, non-matching records have none; a record is in the result iff it is in the data and matches |
| Dataset.FilterIsSubsequence | backend/controllers/exhibitsController.js:31 | the result is a subsequence of the data: original relative order kept |
| Dataset.FilterAppend | backend/controllers/exhibitsController.js:31 | filtering a concatenation is the concatenation of the filtered parts (order preservation) |
| Dataset.FilterSingleton | backend/controllers/contentController.js:31 | a single record is kept iff it matches; with FilterAppend this determines filter completely |
| Dataset.FilterIdempotent | backend/controllers/contentController.js:31 | filtering the result again by the same field and value returns it unchanged |
| Dataset.FilterEmptyIff | backend/controllers/contentController.js:31-37 | the result is empty iff no record matches |
| Dataset.FindIsHeadOfFilter | frontend/src/stores/museum.js:26-35 | find returns the first element of the filter on the same field and value, and `None` iff the filter is empty |
| Json.Get | frontend/src/services/externalApi.js:38 | property access on a body: `undefined` iff the body is not an object or has no such member, otherwise the value of the last member with that key, as parsed JSON keeps it |
| RoomsController.GetAllRooms | backend/controllers/roomsController.js:10-16 | status 200, `success` true, `data` is the whole rooms sequence in order, `count` equal to the length of `data` |
| RoomsController.GetRoomById | backend/controllers/roomsController.js:28-43 | 200 iff some room has exactly that id, with the first such room as `data`; otherwise 404, `success: false`, error `Sala no encontrada`; `success` iff 200 |
| RoomsController.IdMatchIsExact | backend/controllers/roomsController.js:31 | when no two rooms share an id, every room is answered under its own id, and no other string (a case or whitespace variant) answers with that room |
| RoomsController.MissingRoomIs404 | backend/controllers/roomsController.js:33-38 | `GET /rooms/room-3` with no such room is 404 with `success: false` and `Sala no encontrada` |
| ContentController.GetAllContent | backend/controllers/contentController.js:10-16 | status 200, the whole content sequence in order, `count` equal to the length of `data` |
| ContentController.GetContentByType | backend/controllers/contentController.js:28-37 | status 200 and success always; `data` is the filter by `type`, every item has that type, `count` equal to the length of `data` and at most the number of content items; no match iff the body is `{success: true, count: 0, data: []}` |
| ContentController.ByTypeIdempotent | backend/controllers/contentController.js:31 | asking again for the same type over the answer gives the same reply |
| ContentController.ByTypeIsSelection | backend/controllers/contentController.js:31 | the answer is a subsequence of the content, with each item of that type at its original multiplicity and no other item |
| ExhibitsController.GetAllExhibits | backend/controllers/exhibitsController.js:10-16 | status 200, the whole exhibits sequence in order, `count` equal to the length of `data` |
| ExhibitsController.GetExhibitsByRoom | backend/controllers/exhibitsController.js:28-37 | status 200 and success always, even for an unknown or dangling room; `data` is the filter by `roomId`, `count` equal to the length of `data` and at most the number of exhibits; empty iff no exhibit has that room id |
| ExhibitsController.ByRoomIsSelection | backend/controllers/exhibitsController.js:31 | the answer is a subsequence of the exhibits, with each exhibit of the room at its original multiplicity and no other |
| ExternalRoutes.ErrorBody | backend/routes/external.js:22-27 | the body carries the given `error`; it carries `useMock: true` when asked, and no `useMock` member at all otherwise |
| ExternalRoutes.UpstreamErrorBody | backend/routes/external.js:45-52 | the body carries `error`, the upstream `status`, the upstream data as `message`, and `useMock` only when asked |
| ExternalRoutes.MockableReply | backend/routes/external.js:40-57 | upstream success: status 200 with the body unchanged; HTTP error: mirrored status, `status`, `message` and `error` members; no response: 500; every failure suggests the mock |
| ExternalRoutes.AnimalRoute | backend/routes/external.js:18-59 | no key: 503 with `useMock` and no upstream request; otherwise exactly one request for the name, and then 200 with the body unchanged, mirrored status with `message` and `useMock`, or 500 with `useMock` |
| ExternalRoutes.PlantSearchRoute | backend/routes/external.js:65-106 | the same four rules, keyed on the Trefle key, with exactly one search request when the key is set |
| ExternalRoutes.PlantByIdRoute | backend/routes/external.js:112-149 | no key: 503; HTTP error: mirrored status with `message`; no response: 404 `Plant not found`; no error body carries `useMock`; at most one request |
| ExternalRoutes.AnimalAndSearchAgree | backend/routes/external.js:18-106 | for the same key and upstream outcome the animal and plant-search handlers give the same status and the same mock hint, with at most one request |
| ExternalRoutes.PlantByIdDiffersOnlyWithoutReply | backend/routes/external.js:134-148 | plant details answer with the plant-search status except when the upstream gave no reply: 404 there instead of 500 |
| ExternalApi.MockAnimalData | frontend/src/services/externalApi.js:52-95 | `"axolotl"` gives the one-element axolotl list; every other name, whatever its case, gives `[]` |
| ExternalApi.ToLower | frontend/src/services/externalApi.js:222 | same length, each character lower-cased |
| ExternalApi.Includes | frontend/src/services/externalApi.js:222 | true iff `sub` occurs in `s` at some position |
| ExternalApi.MockPlantData | frontend/src/services/externalApi.js:160-223 | the four-mangrove payload when the lower-cased query contains `mang`, otherwise `{data: []}`; nothing else |
| ExternalApi.MockPlantDataIgnoresCase | frontend/src/services/externalApi.js:222 | queries that differ only in letter case get the same mock answer |
| ExternalApi.ToLowerIdempotent | frontend/src/services/externalApi.js:222 | lower-casing twice is lower-casing once |
| ExternalApi.MockPlantDataOfLowered | frontend/src/services/externalApi.js:222 | a query and its lower-cased form get the same mock answer |
| ExternalApi.GetAnimalByName | frontend/src/services/externalApi.js:23-47 | success returns the proxy's data unchanged; any failure returns the animal mock for the name, whether or not `useMock` is set |
| ExternalApi.SearchPlants | frontend/src/services/externalApi.js:107-132 | success returns the proxy's data unchanged; any failure returns the plant mock for the query, whether or not `useMock` is set |
| ExternalApi.GetPlantById | frontend/src/services/externalApi.js:139-155 | success returns the proxy's data; any failure returns `null`, never mock data |
| MuseumStore.Store.constructor | frontend/src/stores/museum.js:12-17 | empty collections, no current room, not loading, no error |
| MuseumStore.Store.RoomCount | frontend/src/stores/museum.js:20 | `roomCount` is always the number of rooms held |
| MuseumStore.Store.ExhibitCount | frontend/src/stores/museum.js:21 | `exhibitCount` is always the number of exhibits held |
| MuseumStore.Store.GetRoomById | frontend/src/stores/museum.js:26-28 | `None` iff no held room has the id; otherwise that id's first room |
| MuseumStore.Store.GetExhibitsByRoom | frontend/src/stores/museum.js:33-35 | the held exhibits with that `roomId`, in order, never more than held |
| MuseumStore.Store.BeginFetch | frontend/src/stores/museum.js:42-43 | every fetch starts with `loading` true and `error` null, and nothing else changed |
| MuseumStore.Store.SettleRooms | frontend/src/stores/museum.js:44-52 | success replaces `rooms`; failure keeps the old `rooms` and sets the rooms error; `loading` ends false; the other fields are unchanged |
| MuseumStore.Store.SettleExhibits | frontend/src/stores/museum.js:61-69 | the same for `exhibits` and its error message |
| MuseumStore.Store.SettleContent | frontend/src/stores/museum.js:78-86 | the same for `content` and its error message |
| MuseumStore.Store.FetchRooms | frontend/src/stores/museum.js:41-53 | success: new `rooms`, `error` null; failure: old `rooms` kept, `error` is `Error al cargar las salas del museo`; `loading` false; other collections and `currentRoom` unchanged |
| MuseumStore.Store.FetchExhibits | frontend/src/stores/museum.js:58-70 | the same for `exhibits` with `Error al cargar las exhibiciones` |
| MuseumStore.Store.FetchContent | frontend/src/stores/museum.js:75-87 | the same for `content` with `Error al cargar el contenido` |
| MuseumStore.Store.SetCurrentRoom | frontend/src/stores/museum.js:92-94 | only `currentRoom` changes |
| MuseumStore.Store.ClearError | frontend/src/stores/museum.js:99-101 | only `error` changes, to null |
| MuseumStore.StaleOnError | frontend/src/stores/museum.js:41-53 | a failed `fetchRooms` after a successful one leaves the loaded rooms and their count in place and reports the rooms error |
| MuseumStore.FetchesAreIndependent | frontend/src/stores/museum.js:41-87 | a scenario: a store that has loaded some exhibits and content and selected some room fetches rooms; either outcome leaves those three as they were (the general statement is the frame of `FetchRooms`) |
| Integration.Receive | frontend/src/services/externalApi.js:27 | a request resolves with the body iff the reply has a 2xx status; otherwise it rejects with the reply, or with none when there was no reply |
| Integration.AnimalLookupEndToEnd | frontend/src/services/externalApi.js:23-46 | through proxy and client, the page gets the upstream body iff the key is set and the upstream answered; otherwise the animal mock |
| Integration.PlantSearchEndToEnd | frontend/src/services/externalApi.js:107-131 | through proxy and client, the upstream body iff the key is set and the upstream answered; otherwise the plant mock |
| Integration.PlantByIdEndToEnd | frontend/src/services/externalApi.js:139-154 | through proxy and client, the upstream body iff the key is set and the upstream answered; otherwise `null` |
| Integration.AxolotlWithoutKey | backend/routes/external.js:22-27 | without the animal key no upstream request is made, and `"axolotl"` yields the fixed axolotl record |
| Integration.MangroveWithoutKey | frontend/src/services/externalApi.js:222 | without the plant key, searching `mangrove` yields the mock with exactly four records |
| Integration.CactusWithoutKey | frontend/src/services/externalApi.js:222 | without the plant key, searching `cactus` yields `{data: []}` |
| MuseumIntegration.RoomLookupAgrees | frontend/src/stores/museum.js:26-28 | after loading the `GET /rooms` listing, the store finds a room iff `GET /rooms/:id` is 200, and it is the same room; otherwise the backend says `Sala no encontrada` |
| MuseumIntegration.ExhibitsByRoomAgrees | frontend/src/stores/museum.js:33-35 | after loading the `GET /exhibits` listing, the store's exhibits of a room are the `data` of `GET /exhibits/room/:roomId` |

## Left out

- The HTTP requests (axios), their URLs, headers, query parameters and timeouts are not
  modelled. Each request is a parameter: its outcome for the proxy, and an `Outcome` or a
  `Fetch` for the client. `Integration.Receive` states the HTTP client's 2xx rule that connects
  the two layers; it belongs to the library, not to this code.
- The environment variables `ANIMALS_API_KEY` and `TREFLE_API_KEY` are parameters. An unset
  variable is the empty string, as in the source.
- The controllers' `catch` branches (500 with a generic message) are not modelled. Nothing in
  their `try` blocks can throw over a loaded array. The envelope datatype still gives every
  failure `success: false` and an `error` string.
- The contents of the JSON data files are not part of this model. Records keep only `id`,
  `type` and `roomId`.
- Express wiring is not modelled: the routers, middleware, the catch-all 404, the banner route
  and `listen`. Neither is the Vue/Pinia bootstrap, the router and its `document.title` hook,
  or any `console` logging.
- The store's asynchronous interleaving is not modelled. `FetchRooms`, `FetchExhibits` and
  `FetchContent` are atomic. `BeginFetch` and the `Settle…` methods can be called separately,
  but no property is proved about overlapping fetches sharing `loading` and `error`.
- ExternalApi.ToLower: lower-cases only the ASCII letters A–Z. JavaScript's `toLowerCase`
  follows full Unicode case mapping.
- ExternalApi.MockAnimalData: treats the mock table as a plain map, so it returns `[]` for a
  name such as `constructor`. JavaScript would return the member inherited from the object
  prototype there.
- JSON numbers are modelled as integers. All numbers in the mock tables are integers.
- URL encoding and the routing of unusual terms are not modelled. `getAnimalByName` and
  `getPlantById` put the term into the URL path; `searchPlants` sends it as the `q` query
  parameter, which the proxy reads from the query string.
- Integration.AnimalLookupEndToEnd: assumes the request reaches the animal route. An empty
  name or one holding `/` does not; it meets the server's catch-all 404, which has no
  `useMock`, so the page gets the mock rather than the upstream body.
- Integration.PlantByIdEndToEnd: assumes the request reaches the plant-details route. An empty
  id or one holding `/` meets the catch-all 404 and the page gets `null`; the id `search` is
  routed to plant search instead.
