/**
 The flat package an agent travels in between processes: four `int` fields
 (local number, starting rank, type, current rank) and the two doubles, and
 the order the archive writes them in.
 */
module Packages {
  import opened AgentIds
  import opened Wrappers
  import opened Wire

  datatype Package = Package(id: Int32, rank: Int32, agentType: Int32, currentRank: Int32, c: real, total: real)
  {
    function Key(): AgentKey {
      AgentKey(id, rank, agentType)
    }
  }

  /** The archive of a package: id, rank, type, current rank, c, total. */
  function Encode(p: Package): (s: seq<Field>)
    ensures |s| == 6
    ensures s[..4] == EncodeId(AgentId(p.id, p.rank, p.agentType, p.currentRank))
    ensures s[4] == RealField(p.c) && s[5] == RealField(p.total)
    ensures Decode(s) == Some(p)
  {
    [IntField(p.id), IntField(p.rank), IntField(p.agentType), IntField(p.currentRank),
     RealField(p.c), RealField(p.total)]
  }

  /** Reads the six fields back in the order they were written; any other archive is malformed. */
  function Decode(s: seq<Field>): (r: Option<Package>)
    ensures r.Some? ==> |s| == 6 && DecodeId(s[..4]) == Some(AgentId(r.value.id, r.value.rank, r.value.agentType, r.value.currentRank))
    ensures r.Some? ==> s[4] == RealField(r.value.c) && s[5] == RealField(r.value.total)
  {
    if |s| == 6 && s[0].IntField? && s[1].IntField? && s[2].IntField? && s[3].IntField?
       && s[4].RealField? && s[5].RealField?
    then Some(Package(s[0].i, s[1].i, s[2].i, s[3].i, s[4].x, s[5].x))
    else None
  }

  /** Decoding succeeds on exactly the archives that encode a package, and returns that package. */
  lemma DecodeIsInverseOfEncode(s: seq<Field>, p: Package)
    ensures Decode(s) == Some(p) <==> s == Encode(p)
  {
    if s == Encode(p) {
      assert Decode(s) == Some(p);
    }
  }
}
