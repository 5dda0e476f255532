/** The client's `museum` store: the collections fetched from the backend,
    the selected room, and one shared `loading` / `error` pair. Each fetch
    action is `BeginFetch` (before the request is awaited) followed by the
    settling of its own collection; the request is abstracted to its
    outcome. */
module MuseumStore {

  import opened Options
  import opened Dataset

  /** How `api.getRooms()` (or `getExhibits`, `getContent`) ended: the
      listing's `data`, or a rejection. */
  datatype Fetch = Fetched(data: seq<Record>) | FetchFailed

  const ROOMS_ERROR := "Error al cargar las salas del museo"
  const EXHIBITS_ERROR := "Error al cargar las exhibiciones"
  const CONTENT_ERROR := "Error al cargar el contenido"

  class Store {
    var rooms: seq<Record>
    var currentRoom: Option<Record>
    var exhibits: seq<Record>
    var content: seq<Record>
    var loading: bool
    var error: Option<string>

    /** The store as `defineStore` first creates it. */
    constructor ()
      ensures rooms == [] && exhibits == [] && content == []
      ensures currentRoom == None && !loading && error == None
    {
      rooms, exhibits, content := [], [], [];
      currentRoom, loading, error := None, false, None;
    }

    /** `roomCount`: the number of rooms held. */
    function RoomCount(): (n: nat)
      reads this
      ensures n == |rooms|
    {
      |rooms|
    }

    /** `exhibitCount`: the number of exhibits held. */
    function ExhibitCount(): (n: nat)
      reads this
      ensures n == |exhibits|
    {
      |exhibits|
    }

    /** `getRoomById(id)`: the first held room whose id is exactly `id`. */
    function GetRoomById(id: string): (r: Option<Record>)
      reads this
      ensures r.None? <==> forall i :: 0 <= i < |rooms| ==> rooms[i].id != id
      ensures r.Some? ==> r.value.id == id
      ensures r.Some? ==> exists i :: 0 <= i < |rooms| && rooms[i] == r.value
                            && forall j :: 0 <= j < i ==> rooms[j].id != id
    {
      Find(rooms, Id, id)
    }

    /** `getExhibitsByRoom(roomId)`: the held exhibits of that room, in
        order. */
    function GetExhibitsByRoom(roomId: string): (r: seq<Record>)
      reads this
      ensures |r| <= |exhibits|
      ensures forall i :: 0 <= i < |r| ==> r[i].roomId == roomId
      ensures r == Filter(exhibits, RoomId, roomId)
    {
      Filter(exhibits, RoomId, roomId)
    }

    /** The opening of every fetch action, whichever collection it loads. */
    method BeginFetch()
      modifies this`loading, this`error
      ensures loading && error == None
      ensures rooms == old(rooms) && exhibits == old(exhibits) && content == old(content)
      ensures currentRoom == old(currentRoom)
    {
      loading := true;
      error := None;
    }

    /** The rest of `fetchRooms`: keep the data or record the error, then
        clear `loading`. A failure leaves the rooms held before. */
    method SettleRooms(outcome: Fetch)
      modifies this`rooms, this`loading, this`error
      ensures rooms == if outcome.Fetched? then outcome.data else old(rooms)
      ensures error == if outcome.Fetched? then old(error) else Some(ROOMS_ERROR)
      ensures !loading
      ensures exhibits == old(exhibits) && content == old(content) && currentRoom == old(currentRoom)
    {
      match outcome {
        case Fetched(data) => rooms := data;
        case FetchFailed => error := Some(ROOMS_ERROR);
      }
      loading := false;
    }

    /** The rest of `fetchExhibits`. */
    method SettleExhibits(outcome: Fetch)
      modifies this`exhibits, this`loading, this`error
      ensures exhibits == if outcome.Fetched? then outcome.data else old(exhibits)
      ensures error == if outcome.Fetched? then old(error) else Some(EXHIBITS_ERROR)
      ensures !loading
      ensures rooms == old(rooms) && content == old(content) && currentRoom == old(currentRoom)
    {
      match outcome {
        case Fetched(data) => exhibits := data;
        case FetchFailed => error := Some(EXHIBITS_ERROR);
      }
      loading := false;
    }

    /** The rest of `fetchContent`. */
    method SettleContent(outcome: Fetch)
      modifies this`content, this`loading, this`error
      ensures content == if outcome.Fetched? then outcome.data else old(content)
      ensures error == if outcome.Fetched? then old(error) else Some(CONTENT_ERROR)
      ensures !loading
      ensures rooms == old(rooms) && exhibits == old(exhibits) && currentRoom == old(currentRoom)
    {
      match outcome {
        case Fetched(data) => content := data;
        case FetchFailed => error := Some(CONTENT_ERROR);
      }
      loading := false;
    }

    /** `fetchRooms`, run without another action in between: new rooms and
        no error, or the old rooms and the rooms error. */
    method FetchRooms(outcome: Fetch)
      modifies this`rooms, this`loading, this`error
      ensures rooms == if outcome.Fetched? then outcome.data else old(rooms)
      ensures error == if outcome.Fetched? then None else Some(ROOMS_ERROR)
      ensures !loading
      ensures exhibits == old(exhibits) && content == old(content) && currentRoom == old(currentRoom)
    {
      BeginFetch();
      SettleRooms(outcome);
    }

    /** `fetchExhibits`, run without another action in between. */
    method FetchExhibits(outcome: Fetch)
      modifies this`exhibits, this`loading, this`error
      ensures exhibits == if outcome.Fetched? then outcome.data else old(exhibits)
      ensures error == if outcome.Fetched? then None else Some(EXHIBITS_ERROR)
      ensures !loading
      ensures rooms == old(rooms) && content == old(content) && currentRoom == old(currentRoom)
    {
      BeginFetch();
      SettleExhibits(outcome);
    }

    /** `fetchContent`, run without another action in between. */
    method FetchContent(outcome: Fetch)
      modifies this`content, this`loading, this`error
      ensures content == if outcome.Fetched? then outcome.data else old(content)
      ensures error == if outcome.Fetched? then None else Some(CONTENT_ERROR)
      ensures !loading
      ensures rooms == old(rooms) && exhibits == old(exhibits) && currentRoom == old(currentRoom)
    {
      BeginFetch();
      SettleContent(outcome);
    }

    /** `setCurrentRoom`: only the selected room changes. */
    method SetCurrentRoom(room: Option<Record>)
      modifies this`currentRoom
      ensures currentRoom == room
      ensures rooms == old(rooms) && exhibits == old(exhibits) && content == old(content)
      ensures loading == old(loading) && error == old(error)
    {
      currentRoom := room;
    }

    /** `clearError`: only the error is cleared. */
    method ClearError()
      modifies this`error
      ensures error == None
      ensures rooms == old(rooms) && exhibits == old(exhibits) && content == old(content)
      ensures loading == old(loading) && currentRoom == old(currentRoom)
    {
      error := None;
    }
  }

  /** Stale data on error: a failed refresh after a successful load keeps
      the loaded rooms and their count, and reports the rooms error. */
  method StaleOnError(loaded: seq<Record>) returns (rooms: seq<Record>, count: nat, error: Option<string>)
    ensures rooms == loaded && count == |loaded|
    ensures error == Some(ROOMS_ERROR)
  {
    var store := new Store();
    store.FetchRooms(Fetched(loaded));
    store.FetchRooms(FetchFailed);
    rooms, count, error := store.rooms, store.RoomCount(), store.error;
  }

  /** A fetch of one collection, successful or not, leaves the other two
      collections and the selected room as they were: a store that has
      loaded `exhibits` and `content` and selected `room` fetches rooms. */
  method FetchesAreIndependent(exhibits: seq<Record>, content: seq<Record>, room: Option<Record>,
                               outcome: Fetch)
    returns (exhibitsAfter: seq<Record>, contentAfter: seq<Record>, current: Option<Record>)
    ensures exhibitsAfter == exhibits && contentAfter == content && current == room
  {
    var store := new Store();
    store.FetchExhibits(Fetched(exhibits));
    store.FetchContent(Fetched(content));
    store.SetCurrentRoom(room);
    store.FetchRooms(outcome);
    exhibitsAfter, contentAfter, current := store.exhibits, store.content, store.currentRoom;
  }
}
