/**
 The archive the serialisation library writes: a flat sequence of scalar
 fields in the order they are written. The model tags each field with its
 C++ kind; the binary archive itself carries no such tag.
 */
module Wire {
  import opened AgentIds
  import opened Wrappers

  datatype Field = IntField(i: Int32) | RealField(x: real)

  /** The archive of an agent identifier: its four `int` fields in declaration order. */
  function EncodeId(id: AgentId): (r: seq<Field>)
    ensures |r| == 4
  {
    [IntField(id.num), IntField(id.startingRank), IntField(id.agentType), IntField(id.currentRank)]
  }

  function DecodeId(s: seq<Field>): (r: Option<AgentId>)
    ensures r.Some? ==> |s| == 4
  {
    if |s| == 4 && s[0].IntField? && s[1].IntField? && s[2].IntField? && s[3].IntField?
    then Some(AgentId(s[0].i, s[1].i, s[2].i, s[3].i))
    else None
  }

  /** Reading an identifier back succeeds on exactly the archives written for it. */
  lemma DecodeIdIsInverse(s: seq<Field>, id: AgentId)
    ensures DecodeId(s) == Some(id) <==> s == EncodeId(id)
  {
    if s == EncodeId(id) {
      assert DecodeId(s) == Some(id);
    }
  }
}
