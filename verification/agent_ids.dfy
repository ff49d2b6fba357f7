/**
 Agent identifiers of the simulation library. An identifier carries an
 immutable triple (local number, starting rank, agent type) and a mutable
 current rank. Equality of identifiers, and every lookup in the agent store,
 uses the triple only: the current rank is metadata.
 */
module AgentIds {

  const MIN_INT32: int := -0x8000_0000
  const MAX_INT32: int := 0x7FFF_FFFF

  /** The C++ `int` every identifier field and package field is declared with. */
  type Int32 = x: int | MIN_INT32 <= x <= MAX_INT32

  /** The identity triple: what two identifiers must agree on to name one agent. */
  datatype AgentKey = AgentKey(num: Int32, startingRank: Int32, agentType: Int32)

  datatype AgentId = AgentId(num: Int32, startingRank: Int32, agentType: Int32, currentRank: Int32)
  {
    function Key(): AgentKey {
      AgentKey(num, startingRank, agentType)
    }
  }

  /** An identifier whose current rank is its starting rank, as a fresh agent gets it. */
  function HomeId(num: Int32, rank: Int32, agentType: Int32): AgentId {
    AgentId(num, rank, agentType, rank)
  }
}
