/** The `{success, count, data}` / `{success, error}` JSON envelope the three
    museum controllers answer with, and the HTTP status it is sent with. */
module Envelope {

  import opened Dataset

  datatype Body =
    | Listing(count: nat, data: seq<Record>)  // {success: true, count, data}
    | Item(item: Record)                      // {success: true, data}
    | Failure(error: string)                  // {success: false, error}
  {
    /** The envelope's `success` member. */
    predicate Success() {
      !Failure?
    }
  }

  /** `res.json(...)` answers with status 200 unless `res.status(...)` set
      another one first. */
  datatype Reply = Reply(status: int, body: Body)

  /** A listing envelope whose `count` is the length of its `data`. */
  predicate WellCounted(b: Body) {
    b.Listing? ==> b.count == |b.data|
  }
}
