/** `GET /content` and `GET /content/type/:type`: the content controller over
    the read-only content array. */
module ContentController {

  import opened Dataset
  import opened Envelope
  import opened HttpStatus

  /** `getAllContent`: every content item, in the dataset's order, counted. */
  function GetAllContent(content: seq<Record>): (r: Reply)
    ensures r.status == OK && r.body.Success() && WellCounted(r.body)
    ensures r.body.Listing? && r.body.data == content && r.body.count == |content|
  {
    Reply(OK, Listing(|content|, content))
  }

  /** `getContentByType`: the items whose `type` is exactly `kind`, in their
      original order; no match is still a success, with `count` 0. */
  function GetContentByType(content: seq<Record>, kind: string): (r: Reply)
    ensures r.status == OK && r.body.Success() && WellCounted(r.body)
    ensures r.body.Listing? && r.body.data == Filter(content, Kind, kind)
    ensures forall i :: 0 <= i < |r.body.data| ==> r.body.data[i].kind == kind
    ensures r.body.count <= |content|
    ensures (forall i :: 0 <= i < |content| ==> content[i].kind != kind) <==> r.body == Listing(0, [])
  {
    var items := Filter(content, Kind, kind);
    FilterEmptyIff(content, Kind, kind);
    Reply(OK, Listing(|items|, items))
  }

  /** Asking again for the same type over the answer returns the answer. */
  lemma ByTypeIdempotent(content: seq<Record>, kind: string)
    ensures GetContentByType(GetContentByType(content, kind).body.data, kind) == GetContentByType(content, kind)
  {
    FilterIdempotent(content, Kind, kind);
  }

  /** The answer is a subsequence of the content: each matching item keeps
      its multiplicity and no other item appears. */
  lemma ByTypeIsSelection(content: seq<Record>, kind: string, x: Record)
    ensures IsSubsequence(GetContentByType(content, kind).body.data, content)
    ensures multiset(GetContentByType(content, kind).body.data)[x]
              == if x.kind == kind then multiset(content)[x] else 0
  {
    FilterIsSubsequence(content, Kind, kind);
    FilterCount(content, Kind, kind, x);
  }
}
