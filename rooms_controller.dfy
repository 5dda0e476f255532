/** `GET /rooms` and `GET /rooms/:id`: the rooms controller over the
    read-only rooms array. */
module RoomsController {

  import opened Options
  import opened Dataset
  import opened Envelope
  import opened HttpStatus

  const ROOM_NOT_FOUND := "Sala no encontrada"

  /** `getAllRooms`: every room, in the dataset's order, counted. */
  function GetAllRooms(rooms: seq<Record>): (r: Reply)
    ensures r.status == OK && r.body.Success() && WellCounted(r.body)
    ensures r.body.Listing? && r.body.data == rooms && r.body.count == |rooms|
  {
    Reply(OK, Listing(|rooms|, rooms))
  }

  /** `getRoomById`: the first room whose id is exactly `id`, or a 404
      envelope when no room has that id. */
  function GetRoomById(rooms: seq<Record>, id: string): (r: Reply)
    ensures r.status == OK <==> exists i :: 0 <= i < |rooms| && rooms[i].id == id
    ensures r.status == OK ==> r.body.Item? && r.body.item.id == id
    ensures r.status == OK ==> exists i :: 0 <= i < |rooms| && rooms[i] == r.body.item
                                 && forall j :: 0 <= j < i ==> rooms[j].id != id
    ensures r.status != OK ==> r.status == NOT_FOUND && r.body == Failure(ROOM_NOT_FOUND)
    ensures r.body.Success() <==> r.status == OK
  {
    match Find(rooms, Id, id)
    case None => Reply(NOT_FOUND, Failure(ROOM_NOT_FOUND))
    case Some(room) => Reply(OK, Item(room))
  }

  /** No two rooms share an id. */
  predicate UniqueIds(rooms: seq<Record>) {
    forall i, j :: 0 <= i < j < |rooms| ==> rooms[i].id != rooms[j].id
  }

  /** Id matching is exact: when ids are unique, every room is answered
      under its own id, and under no other string, so an id that differs in
      case or surrounding spaces does not reach it. */
  lemma IdMatchIsExact(rooms: seq<Record>, k: nat, id: string)
    requires UniqueIds(rooms) && k < |rooms|
    ensures GetRoomById(rooms, rooms[k].id) == Reply(OK, Item(rooms[k]))
    ensures id != rooms[k].id ==> GetRoomById(rooms, id).body != Item(rooms[k])
  {
  }

  /** `GET /rooms/room-3` when no room has id `room-3`. */
  lemma MissingRoomIs404(rooms: seq<Record>)
    requires forall i :: 0 <= i < |rooms| ==> rooms[i].id != "room-3"
    ensures GetRoomById(rooms, "room-3").status == 404
    ensures !GetRoomById(rooms, "room-3").body.Success()
    ensures GetRoomById(rooms, "room-3").body.error == "Sala no encontrada"
  {
  }
}
