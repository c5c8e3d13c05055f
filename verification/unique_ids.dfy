/** JUnit Platform `UniqueId`: a sequence of (type, value) segments. */
module UniqueIds {

  datatype Segment = Segment(kind: string, value: string)

  type UniqueId = seq<Segment>

  /** `UniqueId.append(kind, value)`: a new id extending `id` by one segment. */
  function Append(id: UniqueId, kind: string, value: string): (r: UniqueId)
    ensures |r| == |id| + 1
    ensures r[..|id|] == id
    ensures r[|id|] == Segment(kind, value)
  {
    id + [Segment(kind, value)]
  }
}
