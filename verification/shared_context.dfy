/**
 The simulation library's shared agent store, seen from one process. It keeps
 the agents this process owns (local) apart from the copies it caches of
 agents other processes own (non-local), both indexed by identity triple.
 The library itself is not part of this model; only what the repository's
 code relies on is stated here.
 */
module SharedContext {
  import opened AgentIds
  import opened Wrappers
  import opened Agents

  /**
   The store of process `rank`. The library counts an agent as local exactly
   when its current rank is the process's rank, so an agent whose current rank
   changes also changes side.
   */
  datatype Context = Context(rank: Int32, local: map<AgentKey, Agent>, nonLocal: map<AgentKey, Agent>)

  /** A request message: the sender's rank, the agents it wants copies of, and the copies it releases. */
  datatype AgentRequest = AgentRequest(source: Int32, requests: seq<AgentId>, cancellations: seq<AgentId>)

  /**
   Every agent is filed under its own triple, no triple is both local and
   non-local, and an agent is local exactly when its current rank is the store's rank.
   */
  ghost predicate Valid(ctx: Context) {
    && ctx.local.Keys !! ctx.nonLocal.Keys
    && (forall k :: k in ctx.local ==> ctx.local[k].id.Key() == k && ctx.local[k].id.currentRank == ctx.rank)
    && (forall k :: k in ctx.nonLocal ==> ctx.nonLocal[k].id.Key() == k && ctx.nonLocal[k].id.currentRank != ctx.rank)
  }

  predicate Resolves(ctx: Context, k: AgentKey) {
    k in ctx.local || k in ctx.nonLocal
  }

  /** The agent a pointer lookup by triple yields, for a triple the store holds. */
  function Lookup(ctx: Context, k: AgentKey): (a: Agent)
    requires Resolves(ctx, k)
    ensures a == (if k in ctx.local then ctx.local[k] else ctx.nonLocal[k])
  {
    if k in ctx.local then ctx.local[k] else ctx.nonLocal[k]
  }

  /** A lookup that may miss; `None` is the null pointer the library returns. */
  function GetAgent(ctx: Context, k: AgentKey): (r: Option<Agent>)
    ensures r.Some? <==> Resolves(ctx, k)
    ensures r.Some? ==> r.value == Lookup(ctx, k)
  {
    if Resolves(ctx, k) then Some(Lookup(ctx, k)) else None
  }

  /**
   In a valid store a triple resolves to an agent carrying that triple, and
   only one; the agent is local exactly when its current rank is the store's.
   */
  lemma SingleResolution(ctx: Context, k: AgentKey)
    requires Valid(ctx)
    requires Resolves(ctx, k)
    ensures Lookup(ctx, k).id.Key() == k
    ensures !(k in ctx.local && k in ctx.nonLocal)
    ensures k in ctx.local <==> Lookup(ctx, k).id.currentRank == ctx.rank
  {
  }

  /** No two agents of the list carry the same triple. */
  predicate DistinctKeys(agents: seq<Agent>) {
    forall i, j :: 0 <= i < j < |agents| ==> agents[i].id.Key() != agents[j].id.Key()
  }

  /**
   The library's random selection of up to `count` agents: the caller supplies
   the random order, and the first `count` of it (all of it when shorter) are taken.
   */
  function SelectAgents(count: nat, shuffled: seq<Agent>): (r: seq<Agent>)
    ensures |r| == if count < |shuffled| then count else |shuffled|
    ensures forall j :: 0 <= j < |r| ==> r[j] == shuffled[j]
  {
    if count < |shuffled| then shuffled[..count] else shuffled
  }

  /**
   Asking for more agents than there are yields all of them, and a repeat-free
   order gives a repeat-free selection: sampling degrades gracefully.
   */
  lemma SelectionDegrades(count: nat, shuffled: seq<Agent>)
    requires DistinctKeys(shuffled)
    ensures count >= |shuffled| ==> SelectAgents(count, shuffled) == shuffled
    ensures DistinctKeys(SelectAgents(count, shuffled))
  {
  }
}
