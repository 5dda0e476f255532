/** `GET /exhibits` and `GET /exhibits/room/:roomId`: the exhibits controller
    over the read-only exhibits array. */
module ExhibitsController {

  import opened Dataset
  import opened Envelope
  import opened HttpStatus

  /** `getAllExhibits`: every exhibit, in the dataset's order, counted. */
  function GetAllExhibits(exhibits: seq<Record>): (r: Reply)
    ensures r.status == OK && r.body.Success() && WellCounted(r.body)
    ensures r.body.Listing? && r.body.data == exhibits && r.body.count == |exhibits|
  {
    Reply(OK, Listing(|exhibits|, exhibits))
  }

  /** `getExhibitsByRoom`: the exhibits whose `roomId` is exactly `roomId`,
      in their original order. The room itself is never looked up: an
      unknown or dangling room id is a success with no exhibits. */
  function GetExhibitsByRoom(exhibits: seq<Record>, roomId: string): (r: Reply)
    ensures r.status == OK && r.body.Success() && WellCounted(r.body)
    ensures r.body.Listing? && r.body.data == Filter(exhibits, RoomId, roomId)
    ensures forall i :: 0 <= i < |r.body.data| ==> r.body.data[i].roomId == roomId
    ensures r.body.count <= |exhibits|
    ensures (forall i :: 0 <= i < |exhibits| ==> exhibits[i].roomId != roomId) <==> r.body == Listing(0, [])
  {
    var items := Filter(exhibits, RoomId, roomId);
    FilterEmptyIff(exhibits, RoomId, roomId);
    Reply(OK, Listing(|items|, items))
  }

  /** The answer is a subsequence of the exhibits: each exhibit of the room
      keeps its multiplicity and no other exhibit appears. */
  lemma ByRoomIsSelection(exhibits: seq<Record>, roomId: string, x: Record)
    ensures IsSubsequence(GetExhibitsByRoom(exhibits, roomId).body.data, exhibits)
    ensures multiset(GetExhibitsByRoom(exhibits, roomId).body.data)[x]
              == if x.roomId == roomId then multiset(exhibits)[x] else 0
  {
    FilterIsSubsequence(exhibits, RoomId, roomId);
    FilterCount(exhibits, RoomId, roomId, x);
  }
}
