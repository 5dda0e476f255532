/** The museum's static dataset: the three read-only JSON arrays (rooms,
    exhibits, content) seen as sequences of records, and the two queries the
    backend controllers and the client store run over them: `find` by exact
    field match and order-preserving `filter`. */
module Dataset {

  import opened Options

  /** A record of any of the three collections, reduced to the fields the
      queries look at. `kind` is the content item's `type` tag (`type` is a
      reserved word in Dafny). */
  datatype Record = Record(id: string, kind: string, roomId: string)

  /** The field a query compares against. */
  datatype Field = Id | Kind | RoomId

  function FieldOf(r: Record, f: Field): string {
    match f
    case Id => r.id
    case Kind => r.kind
    case RoomId => r.roomId
  }

  /** `x` matches when its field `f` is exactly `v`: JavaScript's `===` on
      strings, case-sensitive and without trimming. */
  predicate Matches(x: Record, f: Field, v: string) {
    FieldOf(x, f) == v
  }

  /** `s` is obtained from `t` by deleting elements: same relative order. */
  ghost predicate IsSubsequence<T>(s: seq<T>, t: seq<T>)
    decreases |t|
  {
    if s == [] then true
    else if t == [] then false
    else (s[0] == t[0] && IsSubsequence(s[1..], t[1..])) || IsSubsequence(s, t[1..])
  }

  /** `Array.prototype.find`: the first record whose field `f` equals `v`,
      or `None` (JavaScript's `undefined`) when there is none. */
  function Find(data: seq<Record>, f: Field, v: string): (r: Option<Record>)
    ensures r.None? <==> forall i :: 0 <= i < |data| ==> !Matches(data[i], f, v)
    ensures r.Some? ==> exists i :: 0 <= i < |data| && data[i] == r.value
                           && Matches(data[i], f, v)
                           && forall j :: 0 <= j < i ==> !Matches(data[j], f, v)
  {
    if data == [] then None
    else if Matches(data[0], f, v) then Some(data[0])
    else
      Find(data[1..], f, v)
  }

  /** `Array.prototype.filter`: exactly the records whose field `f` equals
      `v`, in their original relative order. */
  function Filter(data: seq<Record>, f: Field, v: string): (r: seq<Record>)
    ensures |r| <= |data|
    ensures forall i :: 0 <= i < |r| ==> Matches(r[i], f, v)
  {
    if data == [] then []
    else
      var rest := Filter(data[1..], f, v);
      if Matches(data[0], f, v) then [data[0]] + rest else rest
  }

  /** A record is in the filtered result exactly when it is in the data and
      matches; matching records keep their number of occurrences and the
      others have none. */
  lemma {:induction false} FilterCount(data: seq<Record>, f: Field, v: string, x: Record)
    ensures multiset(Filter(data, f, v))[x] == if Matches(x, f, v) then multiset(data)[x] else 0
    ensures x in Filter(data, f, v) <==> x in data && Matches(x, f, v)
  {
    if data != [] {
      FilterCount(data[1..], f, v, x);
      assert data == [data[0]] + data[1..];
      assert multiset(data) == multiset([data[0]]) + multiset(data[1..]);
    }
  }

  /** The filtered result keeps the records' original relative order. */
  lemma {:induction false} FilterIsSubsequence(data: seq<Record>, f: Field, v: string)
    ensures IsSubsequence(Filter(data, f, v), data)
  {
    if data != [] {
      FilterIsSubsequence(data[1..], f, v);
      var rest := Filter(data[1..], f, v);
      if Matches(data[0], f, v) {
        assert ([data[0]] + rest)[1..] == rest;
      }
    }
  }

  /** Filtering distributes over concatenation: together with
      `FilterSingleton` this pins `Filter` down as the order-preserving
      selection of matching records. */
  lemma {:induction false} FilterAppend(a: seq<Record>, b: seq<Record>, f: Field, v: string)
    ensures Filter(a + b, f, v) == Filter(a, f, v) + Filter(b, f, v)
  {
    if a == [] {
      assert a + b == b;
      assert Filter(a, f, v) + Filter(b, f, v) == [] + Filter(b, f, v);
    } else {
      var ab := a + b;
      assert ab[0] == a[0] && ab[1..] == a[1..] + b;
      FilterAppend(a[1..], b, f, v);
      var head: seq<Record> := if Matches(a[0], f, v) then [a[0]] else [];
      var fa, fb := Filter(a[1..], f, v), Filter(b, f, v);
      assert Filter(ab, f, v) == head + (fa + fb);
      assert Filter(a, f, v) == head + fa;
      assert head + (fa + fb) == (head + fa) + fb;
    }
  }

  lemma FilterSingleton(x: Record, f: Field, v: string)
    ensures Filter([x], f, v) == if Matches(x, f, v) then [x] else []
  {
  }

  /** Filtering a filtered result again by the same field and value changes
      nothing. */
  lemma {:induction false} FilterIdempotent(data: seq<Record>, f: Field, v: string)
    ensures Filter(Filter(data, f, v), f, v) == Filter(data, f, v)
  {
    if data != [] {
      FilterIdempotent(data[1..], f, v);
      if Matches(data[0], f, v) {
        var rest := Filter(data[1..], f, v);
        assert ([data[0]] + rest)[1..] == rest;
      }
    }
  }

  /** The filtered result is empty exactly when no record matches: an empty
      result is an answer, not a failure. */
  lemma {:induction false} FilterEmptyIff(data: seq<Record>, f: Field, v: string)
    ensures Filter(data, f, v) == [] <==> forall i :: 0 <= i < |data| ==> !Matches(data[i], f, v)
  {
    if data != [] {
      FilterEmptyIff(data[1..], f, v);
      assert forall i :: 1 <= i < |data| ==> data[i] == data[1..][i - 1];
    }
  }

  /** `find` is the head of `filter`: the two queries agree on which record
      comes first. */
  lemma {:induction false} FindIsHeadOfFilter(data: seq<Record>, f: Field, v: string)
    ensures Find(data, f, v) == if Filter(data, f, v) == [] then None else Some(Filter(data, f, v)[0])
  {
    if data != [] && !Matches(data[0], f, v) {
      FindIsHeadOfFilter(data[1..], f, v);
    }
  }
}
