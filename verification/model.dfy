/**
 The model's construction steps around the library's store: building the
 population, building the request for copies of remote agents, wiring the
 agent network, cancelling every copy held, removing the first five agents
 and planning migrations off process 0. Random selections arrive as
 caller-supplied orders; the library calls that ship requests and
 synchronise state after each step are not modelled.
 */
module Model {
  import opened AgentIds
  import opened Agents
  import opened SharedContext
  import opened Network
  import opened Wrappers

  // ---------------------------------------------------------------------------
  // Population

  /** What `init` leaves behind: agents (i, rank, 0) for i in [0, count), fresh, at home, all local. */
  ghost predicate IsInitialPopulation(ctx: Context, rank: Int32, count: int) {
    && ctx.rank == rank
    && ctx.nonLocal == map[]
    && (forall k :: k in ctx.local <==> 0 <= k.num < count && k.startingRank == rank && k.agentType == 0)
    && (forall k :: k in ctx.local ==> ctx.local[k] == NewAgent(HomeId(k.num, rank, 0)))
  }

  /** `init`: adds countOfAgents fresh agents numbered 0, 1, ... to an empty store. */
  method Init(rank: Int32, count: Int32) returns (ctx: Context)
    ensures IsInitialPopulation(ctx, rank, count)
    ensures Valid(ctx)
    ensures |ctx.local| == if count < 0 then 0 else count
  {
    ctx := Context(rank, map[], map[]);
    var i := 0;
    while i < count
      invariant 0 <= i <= if count < 0 then 0 else count
      invariant IsInitialPopulation(ctx, rank, i)
      invariant Valid(ctx)
      invariant |ctx.local| == i
    {
      var agent := NewAgent(HomeId(i, rank, 0));
      GrowPopulation(ctx, rank, i);
      ctx := ctx.(local := ctx.local[agent.id.Key() := agent]);
      i := i + 1;
    }
  }

  /** Adding agent (i, rank, 0) to the population of i agents gives the population of i + 1. */
  lemma GrowPopulation(ctx: Context, rank: Int32, i: Int32)
    requires 0 <= i < MAX_INT32
    requires IsInitialPopulation(ctx, rank, i) && Valid(ctx) && |ctx.local| == i
    ensures var a := NewAgent(HomeId(i, rank, 0));
            var next := ctx.(local := ctx.local[a.id.Key() := a]);
            IsInitialPopulation(next, rank, i + 1) && Valid(next) && |next.local| == i + 1
  {
    var a := NewAgent(HomeId(i, rank, 0));
    var key := a.id.Key();
    assert key !in ctx.local;
    var next := ctx.(local := ctx.local[key := a]);
    assert next.local.Keys == ctx.local.Keys + {key};
    forall k
      ensures k in next.local <==> 0 <= k.num < i + 1 && k.startingRank == rank && k.agentType == 0
    {
      if k != key {
        assert k in next.local <==> k in ctx.local;
      }
    }
    forall k | k in next.local
      ensures next.local[k] == NewAgent(HomeId(k.num, rank, 0))
      ensures next.local[k].id.Key() == k
    {
      if k != key {
        assert next.local[k] == ctx.local[k];
      }
    }
  }

  // ---------------------------------------------------------------------------
  // Requests for copies of remote agents

  /** How many local agents are chosen for each remote process. */
  const REQUESTS_PER_RANK: nat := 5

  /** The chosen local agents' numbers, re-addressed to process r: (num, r, 0), currently on r. */
  function Retarget(chosen: seq<Agent>, r: Int32): (ids: seq<AgentId>)
    ensures |ids| == |chosen|
    ensures forall j :: 0 <= j < |ids| ==> ids[j] == HomeId(chosen[j].id.num, r, 0)
  {
    seq(|chosen|, j requires 0 <= j < |chosen| => AgentId(chosen[j].id.num, r, 0, r))
  }

  /** The identifiers of `ids` that start on process r, in order. */
  function ForRank(ids: seq<AgentId>, r: int): (s: seq<AgentId>)
    ensures |s| <= |ids|
    ensures forall x :: x in s <==> x in ids && x.startingRank == r
  {
    if |ids| == 0 then []
    else (if ids[0].startingRank == r then [ids[0]] else []) + ForRank(ids[1..], r)
  }

  lemma {:induction false} ForRankAppend(a: seq<AgentId>, b: seq<AgentId>, r: int)
    ensures ForRank(a + b, r) == ForRank(a, r) + ForRank(b, r)
    decreases |a|
  {
    if |a| == 0 {
      assert a + b == b;
    } else {
      assert (a + b)[1..] == a[1..] + b;
      ForRankAppend(a[1..], b, r);
    }
  }

  lemma {:induction false} ForRankOfOneRank(ids: seq<AgentId>, i: int, r: int)
    requires forall j :: 0 <= j < |ids| ==> ids[j].startingRank == i
    ensures ForRank(ids, r) == if r == i then ids else []
    decreases |ids|
  {
    if |ids| > 0 {
      ForRankOfOneRank(ids[1..], i, r);
      if r == i {
        assert [ids[0]] + ids[1..] == ids;
      }
    }
  }

  /**
   What the library's selection guarantees about a random order: every agent
   in it is the store's agent for its triple, and none appears twice.
   */
  predicate DrawsFromStore(ctx: Context, pool: seq<Agent>) {
    && (forall i :: 0 <= i < |pool| ==> GetAgent(ctx, pool[i].id.Key()) == Some(pool[i]))
    && DistinctKeys(pool)
  }

  /** Some agent the store holds has local number `num`. */
  ghost predicate IsHeldNumber(ctx: Context, num: Int32) {
    exists k :: Resolves(ctx, k) && k.num == num
  }

  /** Some local agent of the store has local number `num`. */
  ghost predicate IsLocalNumber(ctx: Context, num: Int32) {
    exists k :: k in ctx.local && k.num == num
  }

  /** Numbers chosen from a store's draw orders are numbers of agents the store holds. */
  lemma ChosenNumbersAreHeld(ctx: Context, pools: seq<seq<Agent>>, r: int, num: Int32)
    requires 0 <= r < |pools|
    requires DrawsFromStore(ctx, pools[r])
    requires IsChosenNumber(num, SelectAgents(REQUESTS_PER_RANK, pools[r]))
    ensures IsHeldNumber(ctx, num)
    ensures ctx.nonLocal == map[] ==> IsLocalNumber(ctx, num)
  {
    var chosen := SelectAgents(REQUESTS_PER_RANK, pools[r]);
    var a :| a in chosen && a.id.num == num;
    var i :| 0 <= i < |chosen| && chosen[i] == a;
    assert GetAgent(ctx, pools[r][i].id.Key()) == Some(pools[r][i]);
    assert Resolves(ctx, a.id.Key()) && a.id.Key().num == num;
  }

  /** Some chosen agent has local number `num`. */
  predicate IsChosenNumber(num: Int32, chosen: seq<Agent>) {
    exists s :: s in chosen && s.id.num == num
  }

  /** The batch of requests for process i: nothing for the own process, else the chosen agents re-addressed. */
  function Batch(rank: Int32, pools: seq<seq<Agent>>, i: Int32): (ids: seq<AgentId>)
    requires 0 <= i < |pools|
    ensures forall j :: 0 <= j < |ids| ==> ids[j].startingRank == i
  {
    if i == rank then [] else Retarget(SelectAgents(REQUESTS_PER_RANK, pools[i]), i)
  }

  /** What the requests built for processes 0 .. i-1 satisfy. */
  ghost predicate RequestedUpTo(ids: seq<AgentId>, rank: Int32, pools: seq<seq<Agent>>, i: int)
    requires 0 <= i <= |pools| <= MAX_INT32
  {
    && (forall j :: 0 <= j < |ids| ==>
          && ids[j].startingRank != rank
          && 0 <= ids[j].startingRank < i
          && ids[j].currentRank == ids[j].startingRank
          && ids[j].agentType == 0)
    && (forall j :: 0 <= j < |ids| ==>
          IsChosenNumber(ids[j].num, SelectAgents(REQUESTS_PER_RANK, pools[ids[j].startingRank])))
    && (forall j, j' :: 0 <= j < j' < |ids| ==> ids[j].startingRank <= ids[j'].startingRank)
    && (forall r: Int32 :: 0 <= r < |pools| ==> ForRank(ids, r) == if r < i then Batch(rank, pools, r) else [])
  }

  lemma ExtendRequest(ids: seq<AgentId>, rank: Int32, pools: seq<seq<Agent>>, i: Int32)
    requires 0 <= i < |pools| <= MAX_INT32
    requires RequestedUpTo(ids, rank, pools, i)
    ensures RequestedUpTo(ids + Batch(rank, pools, i), rank, pools, i + 1)
  {
    ExtendPerRank(ids, rank, pools, i);
    ExtendChosen(ids, rank, pools, i);
  }

  /** Appending process i's batch gives every process handled so far exactly its batch. */
  lemma ExtendPerRank(ids: seq<AgentId>, rank: Int32, pools: seq<seq<Agent>>, i: Int32)
    requires 0 <= i < |pools| <= MAX_INT32
    requires forall r: Int32 :: 0 <= r < |pools| ==> ForRank(ids, r) == if r < i then Batch(rank, pools, r) else []
    ensures var next := ids + Batch(rank, pools, i);
            forall r: Int32 :: 0 <= r < |pools| ==> ForRank(next, r) == if r < i + 1 then Batch(rank, pools, r) else []
  {
    var batch := Batch(rank, pools, i);
    forall r: Int32 | 0 <= r < |pools|
      ensures ForRank(ids + batch, r) == if r < i + 1 then Batch(rank, pools, r) else []
    {
      ForRankAppend(ids, batch, r);
      ForRankOfOneRank(batch, i, r);
    }
  }

  /** Every id of process i's batch reuses the number of an agent chosen for process i. */
  lemma ExtendChosen(ids: seq<AgentId>, rank: Int32, pools: seq<seq<Agent>>, i: Int32)
    requires 0 <= i < |pools| <= MAX_INT32
    requires forall j :: 0 <= j < |ids| ==> 0 <= ids[j].startingRank < |pools|
    requires forall j :: 0 <= j < |ids| ==>
               IsChosenNumber(ids[j].num, SelectAgents(REQUESTS_PER_RANK, pools[ids[j].startingRank]))
    ensures var next := ids + Batch(rank, pools, i);
            forall j :: 0 <= j < |next| ==>
              IsChosenNumber(next[j].num, SelectAgents(REQUESTS_PER_RANK, pools[next[j].startingRank]))
  {
    var next := ids + Batch(rank, pools, i);
    forall j | 0 <= j < |next|
      ensures IsChosenNumber(next[j].num, SelectAgents(REQUESTS_PER_RANK, pools[next[j].startingRank]))
    {
      if j >= |ids| {
        var chosen := SelectAgents(REQUESTS_PER_RANK, pools[i]);
        assert chosen[j - |ids|] in chosen;
      } else {
        assert next[j] == ids[j];
      }
    }
  }

  /**
   `requestAgents`: for every other process i, up to five randomly chosen
   agents of the store are turned into requests for agent (num, i, 0) on
   process i. `pools[i]` is the random order the selection for process i is
   drawn from. When it runs, at tick 1, the store holds only local agents.
   */
  method RequestAgents(ctx: Context, worldSize: Int32, pools: seq<seq<Agent>>) returns (req: AgentRequest)
    requires |pools| == worldSize
    requires forall i :: 0 <= i < |pools| ==> DrawsFromStore(ctx, pools[i])
    ensures forall j :: 0 <= j < |req.requests| ==> IsHeldNumber(ctx, req.requests[j].num)
    ensures ctx.nonLocal == map[] ==> forall j :: 0 <= j < |req.requests| ==> IsLocalNumber(ctx, req.requests[j].num)
    ensures req.source == ctx.rank && req.cancellations == []
    ensures forall j :: 0 <= j < |req.requests| ==>
              && req.requests[j].startingRank != ctx.rank
              && 0 <= req.requests[j].startingRank < worldSize
              && req.requests[j].currentRank == req.requests[j].startingRank
              && req.requests[j].agentType == 0
    ensures forall j :: 0 <= j < |req.requests| ==>
              IsChosenNumber(req.requests[j].num, SelectAgents(REQUESTS_PER_RANK, pools[req.requests[j].startingRank]))
    ensures forall j, j' :: 0 <= j < j' < |req.requests| ==>
              req.requests[j].startingRank <= req.requests[j'].startingRank
    ensures forall r: Int32 :: 0 <= r < worldSize ==>
              ForRank(req.requests, r) == if r == ctx.rank then [] else Retarget(SelectAgents(REQUESTS_PER_RANK, pools[r]), r)
    ensures forall r: Int32 :: 0 <= r < worldSize ==> |ForRank(req.requests, r)| <= REQUESTS_PER_RANK
  {
    var rank := ctx.rank;
    req := AgentRequest(rank, [], []);
    var i := 0;
    while i < worldSize
      invariant 0 <= i <= worldSize
      invariant req.source == rank && req.cancellations == []
      invariant RequestedUpTo(req.requests, rank, pools, i)
    {
      ExtendRequest(req.requests, rank, pools, i);
      if i != rank {
        var chosen := SelectAgents(REQUESTS_PER_RANK, pools[i]);
        req := req.(requests := req.requests + Retarget(chosen, i));
      } else {
        assert req.requests + Batch(rank, pools, i) == req.requests;
      }
      i := i + 1;
    }
    RequestedAll(req.requests, rank, pools);
    forall j | 0 <= j < |req.requests|
      ensures IsHeldNumber(ctx, req.requests[j].num)
      ensures ctx.nonLocal == map[] ==> IsLocalNumber(ctx, req.requests[j].num)
    {
      ChosenNumbersAreHeld(ctx, pools, req.requests[j].startingRank, req.requests[j].num);
    }
  }

  /** Once every process is handled, each process's batch is its up to five chosen agents, or nothing for the own rank. */
  lemma RequestedAll(ids: seq<AgentId>, rank: Int32, pools: seq<seq<Agent>>)
    requires |pools| <= MAX_INT32
    requires RequestedUpTo(ids, rank, pools, |pools|)
    ensures forall r: Int32 :: 0 <= r < |pools| ==>
              ForRank(ids, r) == if r == rank then [] else Retarget(SelectAgents(REQUESTS_PER_RANK, pools[r]), r)
    ensures forall r: Int32 :: 0 <= r < |pools| ==> |ForRank(ids, r)| <= REQUESTS_PER_RANK
  {
    forall r: Int32 | 0 <= r < |pools|
      ensures ForRank(ids, r) == if r == rank then [] else Retarget(SelectAgents(REQUESTS_PER_RANK, pools[r]), r)
      ensures |ForRank(ids, r)| <= REQUESTS_PER_RANK
    {
      assert ForRank(ids, r) == Batch(rank, pools, r);
    }
  }

  // ---------------------------------------------------------------------------
  // The agent network

  /** How many other agents each local agent considers linking to. */
  const PARTNERS: nat := 5

  /** No agent of `pool` carries the triple `ego`. */
  predicate Excludes(pool: seq<Agent>, ego: AgentKey) {
    forall i :: 0 <= i < |pool| ==> pool[i].id.Key() != ego
  }

  /**
   What the library's selection guarantees about the random order partners
   of `ego` are drawn from: every agent in it is the store's agent for its
   triple, none is the ego, and none appears twice.
   */
  predicate IsDrawOrder(ctx: Context, ego: AgentKey, pool: seq<Agent>) {
    Excludes(pool, ego) && DrawsFromStore(ctx, pool)
  }

  /** `order` lists every key of `keys` exactly once. */
  ghost predicate Enumerates(order: seq<AgentKey>, keys: set<AgentKey>) {
    && (forall k :: k in keys <==> k in order)
    && (forall j, j' :: 0 <= j < j' < |order| ==> order[j] != order[j'])
  }

  /**
   The candidate vector of `connectAgentNetwork`. The ego is pushed first, but
   `selectAgents(5, agents, true)` keeps it out of the draw and takes it out of
   the vector before returning, so only up to five partners remain.
   */
  function Candidates(ego: Agent, pool: seq<Agent>): (agents: seq<Agent>)
    requires Excludes(pool, ego.id.Key())
    ensures |agents| == if |pool| < PARTNERS then |pool| else PARTNERS
    ensures Excludes(agents, ego.id.Key())
    ensures forall i :: 0 <= i < |agents| ==> agents[i] == pool[i]
  {
    SelectAgents(PARTNERS, pool)
  }

  /** The edge from the ego to the partner at position i: weight i + 1, confidence i × i. */
  function Link(ego: Agent, agents: seq<Agent>, i: nat): (e: Edge)
    requires i < |agents| <= PARTNERS
    ensures e.source == ego.id && e.target == agents[i].id
    ensures 1.0 <= e.weight <= PARTNERS as real && 0 <= e.confidence <= 16
  {
    assert i * i <= 16 by {
      assert i <= 4;
    }
    Edge(ego.id, agents[i].id, (i + 1) as real, i * i)
  }

  /** The edges the ego adds while scanning its first n partners: one per partner with a larger number. */
  function EgoEdges(ego: Agent, agents: seq<Agent>, n: nat): (r: seq<Edge>)
    requires n <= |agents| <= PARTNERS
    ensures |r| <= n
    ensures forall e :: e in r ==>
              exists i :: 0 <= i < n && ego.id.num < agents[i].id.num && e == Link(ego, agents, i)
    ensures forall i :: 0 <= i < n && ego.id.num < agents[i].id.num ==> Link(ego, agents, i) in r
  {
    if n == 0 then []
    else
      EgoEdges(ego, agents, n - 1)
      + (if ego.id.num < agents[n - 1].id.num then [Link(ego, agents, n - 1)] else [])
  }

  /** All edges one local agent adds, given the random order its partners are drawn from. */
  function EdgesOf(ego: Agent, pool: seq<Agent>): seq<Edge>
    requires Excludes(pool, ego.id.Key())
  {
    var agents := Candidates(ego, pool);
    EgoEdges(ego, agents, |agents|)
  }

  /**
   The first partner sits at position 0: when the ego links to it, the edge
   has weight 1 and confidence 0, so that encounter never changes `play`'s sums.
   */
  lemma FirstPartnerCarriesNoConfidence(ego: Agent, pool: seq<Agent>, payoff: real, opponent: Agent)
    requires Excludes(pool, ego.id.Key())
    requires |pool| > 0 && ego.id.num < pool[0].id.num
    ensures Edge(ego.id, pool[0].id, 1.0, 0) in EdgesOf(ego, pool)
    ensures Scaled(payoff, Encounter(1.0, 0, opponent)) == 0.0
  {
    var agents := Candidates(ego, pool);
    assert Link(ego, agents, 0) == Edge(ego.id, pool[0].id, 1.0, 0);
  }

  /** The edges of the egos in turn, each with the random order its partners are drawn from. */
  function NetworkOf(egos: seq<Agent>, pools: seq<seq<Agent>>): seq<Edge>
    requires |pools| == |egos|
    requires forall k :: 0 <= k < |egos| ==> Excludes(pools[k], egos[k].id.Key())
  {
    if |egos| == 0 then []
    else
      var n := |egos| - 1;
      NetworkOf(egos[..n], pools[..n]) + EdgesOf(egos[n], pools[n])
  }

  /** The network of a list of egos holds exactly the edges each of them adds. */
  lemma {:induction false} NetworkOfMembers(egos: seq<Agent>, pools: seq<seq<Agent>>)
    requires |pools| == |egos|
    requires forall k :: 0 <= k < |egos| ==> Excludes(pools[k], egos[k].id.Key())
    ensures forall e :: e in NetworkOf(egos, pools) ==> exists k :: 0 <= k < |egos| && e in EdgesOf(egos[k], pools[k])
    ensures forall k, e :: 0 <= k < |egos| && e in EdgesOf(egos[k], pools[k]) ==> e in NetworkOf(egos, pools)
  {
    if |egos| > 0 {
      var n := |egos| - 1;
      var prev := NetworkOf(egos[..n], pools[..n]);
      assert forall k :: 0 <= k < n ==> egos[..n][k] == egos[k] && pools[..n][k] == pools[k];
      NetworkOfMembers(egos[..n], pools[..n]);
      assert NetworkOf(egos, pools) == prev + EdgesOf(egos[n], pools[n]);
      forall e | e in NetworkOf(egos, pools)
        ensures exists k :: 0 <= k < |egos| && e in EdgesOf(egos[k], pools[k])
      {
        if e in prev {
          var k :| 0 <= k < n && e in EdgesOf(egos[..n][k], pools[..n][k]);
          assert e in EdgesOf(egos[k], pools[k]);
        } else {
          assert e in EdgesOf(egos[n], pools[n]);
        }
      }
      forall k, e | 0 <= k < |egos| && e in EdgesOf(egos[k], pools[k])
        ensures e in NetworkOf(egos, pools)
      {
        if k < n {
          assert e in EdgesOf(egos[..n][k], pools[..n][k]);
        }
      }
    }
  }

  /** The local agents in the order the store iterates them. */
  function Egos(ctx: Context, order: seq<AgentKey>): (r: seq<Agent>)
    requires forall j :: 0 <= j < |order| ==> order[j] in ctx.local
    ensures |r| == |order|
    ensures forall j :: 0 <= j < |order| ==> r[j] == ctx.local[order[j]]
  {
    seq(|order|, j requires 0 <= j < |order| => ctx.local[order[j]])
  }

  /** What `connectAgentNetwork` is given: a valid store, its local iteration order and one draw order per local agent. */
  ghost predicate NetworkInputs(ctx: Context, order: seq<AgentKey>, pools: seq<seq<Agent>>) {
    && Valid(ctx)
    && Enumerates(order, ctx.local.Keys)
    && |pools| == |order|
    && (forall j :: 0 <= j < |order| ==> IsDrawOrder(ctx, order[j], pools[j]))
  }

  /** Every edge an ego adds leaves that ego and ends at the store's agent for a partner. */
  lemma EdgesOfEndInStore(ctx: Context, ego: Agent, pool: seq<Agent>)
    requires IsDrawOrder(ctx, ego.id.Key(), pool)
    ensures forall e :: e in EdgesOf(ego, pool) ==>
              e.source == ego.id && Resolves(ctx, e.target.Key()) && Lookup(ctx, e.target.Key()).id == e.target
  {
    var agents := Candidates(ego, pool);
    forall e | e in EdgesOf(ego, pool)
      ensures e.source == ego.id && Resolves(ctx, e.target.Key()) && Lookup(ctx, e.target.Key()).id == e.target
    {
      var i :| 0 <= i < |agents| && ego.id.num < agents[i].id.num && e == Link(ego, agents, i);
      assert GetAgent(ctx, pool[i].id.Key()) == Some(pool[i]);
    }
  }

  /**
   `connectAgentNetwork`: every local agent, in the store's iteration order
   `order`, links to those of its partners whose local number is larger.
   `pools[j]` is the random order the partners of agent `order[j]` are drawn
   from. Every edge leaves a local agent and ends at an agent of this store.
   */
  function ConnectAgentNetwork(ctx: Context, order: seq<AgentKey>, pools: seq<seq<Agent>>): (r: seq<Edge>)
    requires NetworkInputs(ctx, order, pools)
    ensures forall e :: e in r <==> exists j :: 0 <= j < |order| && e in EdgesOf(ctx.local[order[j]], pools[j])
    ensures forall e :: e in r ==> e.source.Key() in ctx.local && ctx.local[e.source.Key()].id == e.source
    ensures forall e :: e in r ==> Resolves(ctx, e.target.Key()) && Lookup(ctx, e.target.Key()).id == e.target
  {
    var egos := Egos(ctx, order);
    assert forall j :: 0 <= j < |order| ==> egos[j].id.Key() == order[j];
    var r := NetworkOf(egos, pools);
    NetworkOfMembers(egos, pools);
    forall e | e in r
      ensures e.source.Key() in ctx.local && ctx.local[e.source.Key()].id == e.source
      ensures Resolves(ctx, e.target.Key()) && Lookup(ctx, e.target.Key()).id == e.target
    {
      var k :| 0 <= k < |egos| && e in EdgesOf(egos[k], pools[k]);
      EdgesOfEndInStore(ctx, egos[k], pools[k]);
    }
    r
  }

  /**
   Shipping any edge of the network as content and rebuilding it against the
   same store finds both endpoints and gives back the edge itself.
   */
  lemma NetworkEdgesRebuildInStore(ctx: Context, order: seq<AgentKey>, pools: seq<seq<Agent>>)
    requires NetworkInputs(ctx, order, pools)
    ensures forall e :: e in ConnectAgentNetwork(ctx, order, pools) ==>
              && Resolves(ctx, e.source.Key()) && Resolves(ctx, e.target.Key())
              && CreateEdge(ProvideEdgeContent(e), ctx) == e
  {
    forall e | e in ConnectAgentNetwork(ctx, order, pools)
      ensures Resolves(ctx, e.source.Key()) && Resolves(ctx, e.target.Key())
      ensures CreateEdge(ProvideEdgeContent(e), ctx) == e
    {
      EdgeRoundTrip(e, ctx);
    }
  }

  /**
   Every edge runs to an agent with a strictly larger local number, with
   weight i + 1 and confidence i × i for the partner's position i in 0..4:
   so there are no self-loops and never both a -> b and b -> a.
   */
  lemma NetworkShape(ctx: Context, order: seq<AgentKey>, pools: seq<seq<Agent>>)
    requires NetworkInputs(ctx, order, pools)
    ensures forall e :: e in ConnectAgentNetwork(ctx, order, pools) ==>
              && e.source.num < e.target.num
              && (exists i: nat :: i < PARTNERS && e.weight == (i + 1) as real && e.confidence == i * i)
    ensures forall e :: e in ConnectAgentNetwork(ctx, order, pools) ==> e.source.Key() != e.target.Key()
    ensures forall e1, e2 :: e1 in ConnectAgentNetwork(ctx, order, pools) && e2 in ConnectAgentNetwork(ctx, order, pools) ==>
              !(e1.source.Key() == e2.target.Key() && e1.target.Key() == e2.source.Key())
  {
    var r := ConnectAgentNetwork(ctx, order, pools);
    forall e | e in r
      ensures IsForwardLink(e)
    {
      var j :| 0 <= j < |order| && e in EdgesOf(ctx.local[order[j]], pools[j]);
      EgoEdgesGoForward(ctx.local[order[j]], pools[j]);
    }
  }

  /** An edge to a larger local number whose weight and confidence belong to one partner position in 0..4. */
  predicate IsForwardLink(e: Edge) {
    && e.source.num < e.target.num
    && exists i: nat :: i < PARTNERS && e.weight == (i + 1) as real && e.confidence == i * i
  }

  lemma EgoEdgesGoForward(ego: Agent, pool: seq<Agent>)
    requires Excludes(pool, ego.id.Key())
    ensures forall e :: e in EdgesOf(ego, pool) ==> IsForwardLink(e)
  {
    var agents := Candidates(ego, pool);
    forall e | e in EdgesOf(ego, pool)
      ensures IsForwardLink(e)
    {
      var i :| 0 <= i < |agents| && ego.id.num < agents[i].id.num && e == Link(ego, agents, i);
    }
  }

  lemma SourcesOfEarlierEgos(egos: seq<Agent>, pools: seq<seq<Agent>>, n: nat)
    requires |pools| == |egos| && n < |egos|
    requires forall k :: 0 <= k < |egos| ==> Excludes(pools[k], egos[k].id.Key())
    requires DistinctKeys(egos)
    ensures forall e :: e in NetworkOf(egos[..n], pools[..n]) ==> e.source.Key() != egos[n].id.Key()
  {
    assert forall k :: 0 <= k < n ==> egos[..n][k] == egos[k] && pools[..n][k] == pools[k];
    NetworkOfMembers(egos[..n], pools[..n]);
    forall e | e in NetworkOf(egos[..n], pools[..n])
      ensures e.source.Key() != egos[n].id.Key()
    {
      var k :| 0 <= k < n && e in EdgesOf(egos[..n][k], pools[..n][k]);
      EdgesLeaveTheirEgo(egos[k], pools[k]);
    }
  }

  /** Every edge a local agent adds starts at that agent. */
  lemma EdgesLeaveTheirEgo(ego: Agent, pool: seq<Agent>)
    requires Excludes(pool, ego.id.Key())
    ensures forall e :: e in EdgesOf(ego, pool) ==> e.source == ego.id
  {
    var agents := Candidates(ego, pool);
    forall e | e in EdgesOf(ego, pool)
      ensures e.source == ego.id
    {
      var i :| 0 <= i < |agents| && ego.id.num < agents[i].id.num && e == Link(ego, agents, i);
    }
  }

  lemma SeparateSourcesNoParallel(prev: seq<Edge>, last: seq<Edge>, source: AgentKey)
    requires NoParallel(prev)
    requires DistinctTargets(last)
    requires forall e :: e in last ==> e.source.Key() == source
    requires forall e :: e in prev ==> e.source.Key() != source
    ensures NoParallel(prev + last)
  {
    var r := prev + last;
    forall a, b | 0 <= a < b < |r|
      ensures r[a].source.Key() != r[b].source.Key() || r[a].target.Key() != r[b].target.Key()
    {
      if b < |prev| {
        assert r[a] == prev[a] && r[b] == prev[b];
      } else if a < |prev| {
        assert r[a] in prev && r[b] in last;
      } else {
        assert r[a] == last[a - |prev|] && r[b] == last[b - |prev|];
      }
    }
  }

  /** No two edges join the same ordered pair of agents. */
  predicate NoParallel(edges: seq<Edge>) {
    forall a, b :: 0 <= a < b < |edges| ==>
      edges[a].source.Key() != edges[b].source.Key() || edges[a].target.Key() != edges[b].target.Key()
  }

  predicate DistinctTargets(edges: seq<Edge>) {
    forall a, b :: 0 <= a < b < |edges| ==> edges[a].target.Key() != edges[b].target.Key()
  }

  lemma {:induction false} EgoEdgesHaveDistinctTargets(ego: Agent, agents: seq<Agent>, n: nat)
    requires n <= |agents| <= PARTNERS
    requires DistinctKeys(agents)
    ensures DistinctTargets(EgoEdges(ego, agents, n))
  {
    if n > 0 {
      EgoEdgesHaveDistinctTargets(ego, agents, n - 1);
      var prev := EgoEdges(ego, agents, n - 1);
      forall e | e in prev
        ensures e.target.Key() != agents[n - 1].id.Key()
      {
        var i :| 0 <= i < n - 1 && ego.id.num < agents[i].id.num && e == Link(ego, agents, i);
      }
      if ego.id.num < agents[n - 1].id.num {
        var r := prev + [Link(ego, agents, n - 1)];
        forall a, b | 0 <= a < b < |r|
          ensures r[a].target.Key() != r[b].target.Key()
        {
          if b < |prev| {
            assert r[a] == prev[a] && r[b] == prev[b];
            assert prev[a].target.Key() != prev[b].target.Key();
          } else {
            assert r[a] in prev;
            assert r[b] == Link(ego, agents, n - 1);
          }
        }
      } else {
        assert EgoEdges(ego, agents, n) == prev + [];
        assert prev + [] == prev;
      }
    }
  }

  /** Distinct egos with repeat-free partner orders never put two edges on one ordered pair. */
  lemma {:induction false} NetworkOfHasNoParallel(egos: seq<Agent>, pools: seq<seq<Agent>>)
    requires |pools| == |egos|
    requires forall k :: 0 <= k < |egos| ==> Excludes(pools[k], egos[k].id.Key()) && DistinctKeys(pools[k])
    requires DistinctKeys(egos)
    ensures NoParallel(NetworkOf(egos, pools))
  {
    if |egos| > 0 {
      var n := |egos| - 1;
      var prev := NetworkOf(egos[..n], pools[..n]);
      var last := EdgesOf(egos[n], pools[n]);
      var agents := Candidates(egos[n], pools[n]);
      assert forall k :: 0 <= k < n ==> egos[..n][k] == egos[k] && pools[..n][k] == pools[k];
      NetworkOfHasNoParallel(egos[..n], pools[..n]);
      assert DistinctKeys(agents) by {
        forall i, j | 0 <= i < j < |agents|
          ensures agents[i].id.Key() != agents[j].id.Key()
        {
          assert agents[i] == pools[n][i] && agents[j] == pools[n][j];
        }
      }
      EgoEdgesHaveDistinctTargets(egos[n], agents, |agents|);
      EdgesLeaveTheirEgo(egos[n], pools[n]);
      SourcesOfEarlierEgos(egos, pools, n);
      SeparateSourcesNoParallel(prev, last, egos[n].id.Key());
    }
  }

  /**
   Local agents are distinct and every partner order is drawn without
   replacement, so no ordered pair of agents gets two edges.
   */
  lemma NoParallelEdges(ctx: Context, order: seq<AgentKey>, pools: seq<seq<Agent>>)
    requires NetworkInputs(ctx, order, pools)
    ensures NoParallel(ConnectAgentNetwork(ctx, order, pools))
  {
    var egos := Egos(ctx, order);
    assert forall j :: 0 <= j < |order| ==> egos[j].id.Key() == order[j];
    NetworkOfHasNoParallel(egos, pools);
  }

  // ---------------------------------------------------------------------------
  // Cancelling copies of remote agents

  /** The first loop of `cancelAgentRequests`: one cancellation per non-local agent, in iteration order. */
  method ListCancellations(ctx: Context, order: seq<AgentKey>) returns (req: AgentRequest)
    requires forall k :: k in order ==> k in ctx.nonLocal
    ensures req.source == ctx.rank && req.requests == []
    ensures |req.cancellations| == |order|
    ensures forall j :: 0 <= j < |order| ==> req.cancellations[j] == ctx.nonLocal[order[j]].id
  {
    req := AgentRequest(ctx.rank, [], []);
    var j := 0;
    while j < |order|
      invariant 0 <= j <= |order|
      invariant req.source == ctx.rank && req.requests == []
      invariant |req.cancellations| == j
      invariant forall i :: 0 <= i < j ==> req.cancellations[i] == ctx.nonLocal[order[i]].id
    {
      req := req.(cancellations := req.cancellations + [ctx.nonLocal[order[j]].id]);
      j := j + 1;
    }
  }

  /** The second loop of `cancelAgentRequests`: evicts each cancelled agent from the non-local side. */
  method EvictAll(ctx: Context, cancellations: seq<AgentId>) returns (r: Context)
    ensures r.rank == ctx.rank && r.local == ctx.local
    ensures forall k :: k in r.nonLocal <==> k in ctx.nonLocal && forall j :: 0 <= j < |cancellations| ==> cancellations[j].Key() != k
    ensures forall k :: k in r.nonLocal ==> r.nonLocal[k] == ctx.nonLocal[k]
  {
    r := ctx;
    var j := 0;
    while j < |cancellations|
      invariant 0 <= j <= |cancellations|
      invariant r.rank == ctx.rank && r.local == ctx.local
      invariant forall k :: k in r.nonLocal <==> k in ctx.nonLocal && forall i :: 0 <= i < j ==> cancellations[i].Key() != k
      invariant forall k :: k in r.nonLocal ==> r.nonLocal[k] == ctx.nonLocal[k]
    {
      r := r.(nonLocal := r.nonLocal - {cancellations[j].Key()});
      j := j + 1;
    }
  }

  /**
   `cancelAgentRequests`: lists every non-local agent as a cancellation, in the
   order the store iterates them (`order`), and then evicts each one. The
   library call that sends the cancellations does not touch the store.
   */
  method CancelAgentRequests(ctx: Context, order: seq<AgentKey>) returns (req: AgentRequest, r: Context)
    requires Valid(ctx)
    requires Enumerates(order, ctx.nonLocal.Keys)
    ensures req.source == ctx.rank && req.requests == []
    ensures |req.cancellations| == |order|
    ensures forall j :: 0 <= j < |order| ==> req.cancellations[j] == ctx.nonLocal[order[j]].id
    ensures forall k :: k in ctx.nonLocal <==> exists j :: 0 <= j < |req.cancellations| && req.cancellations[j].Key() == k
    ensures r.local == ctx.local
    ensures r.nonLocal == map[]
    ensures Valid(r)
  {
    req := ListCancellations(ctx, order);
    forall k | k in ctx.nonLocal
      ensures exists i :: 0 <= i < |req.cancellations| && req.cancellations[i].Key() == k
    {
      var i :| 0 <= i < |order| && order[i] == k;
      assert req.cancellations[i].Key() == k;
    }
    r := EvictAll(ctx, req.cancellations);
    forall k
      ensures k !in r.nonLocal
    {
      if k in ctx.nonLocal {
        var i :| 0 <= i < |order| && order[i] == k;
        assert req.cancellations[i].Key() == k;
      }
    }
    assert r.nonLocal.Keys == {};
  }

  // ---------------------------------------------------------------------------
  // Removing agents

  /** How many agents `removeLocalAgents` removes: numbers 0 to 4. */
  const REMOVED_AGENTS: nat := 5

  /** The triples `removeLocalAgents` removes on process `rank`: (i, rank, 0) for i in [0, 5). */
  function RemovedKeys(rank: Int32): (s: set<AgentKey>)
    ensures forall k :: k in s <==> 0 <= k.num < REMOVED_AGENTS && k.startingRank == rank && k.agentType == 0
  {
    set i: Int32 | 0 <= i < REMOVED_AGENTS :: AgentKey(i, rank, 0)
  }

  /**
   `removeLocalAgents`: removes agents (0..4, rank, 0) from the store; a triple
   the store does not hold is skipped. Every other agent stays as it was.
   */
  function RemoveLocalAgents(ctx: Context): (r: Context)
    ensures r.rank == ctx.rank
    ensures forall i: Int32 :: 0 <= i < REMOVED_AGENTS ==> !Resolves(r, AgentKey(i, ctx.rank, 0))
    ensures forall k :: k !in RemovedKeys(ctx.rank) ==> GetAgent(r, k) == GetAgent(ctx, k)
    ensures r.local.Keys <= ctx.local.Keys && r.nonLocal.Keys <= ctx.nonLocal.Keys
    ensures Valid(ctx) ==> Valid(r)
  {
    ctx.(local := ctx.local - RemovedKeys(ctx.rank), nonLocal := ctx.nonLocal - RemovedKeys(ctx.rank))
  }

  /** Removing twice is removing once. */
  lemma RemoveIsIdempotent(ctx: Context)
    ensures RemoveLocalAgents(RemoveLocalAgents(ctx)) == RemoveLocalAgents(ctx)
  {
  }

  /** After `init` with at least five agents, removal leaves exactly five fewer. */
  lemma RemoveAfterInit(ctx: Context, rank: Int32, count: Int32)
    requires IsInitialPopulation(ctx, rank, count)
    requires |ctx.local| == count && count >= REMOVED_AGENTS
    ensures |RemoveLocalAgents(ctx).local| == count - REMOVED_AGENTS
  {
    var gone := RemovedKeys(rank);
    assert gone == {AgentKey(0, rank, 0), AgentKey(1, rank, 0), AgentKey(2, rank, 0),
                    AgentKey(3, rank, 0), AgentKey(4, rank, 0)};
    assert |gone| == REMOVED_AGENTS;
    assert gone <= ctx.local.Keys;
    var left := ctx.local - gone;
    assert left.Keys == ctx.local.Keys - gone;
    assert left.Keys + gone == ctx.local.Keys;
    assert left.Keys !! gone;
    assert |left.Keys + gone| == |left.Keys| + |gone|;
  }

  // ---------------------------------------------------------------------------
  // Migration plan

  datatype Move = Move(agent: AgentKey, destination: Int32)

  /**
   `moveAgents`: process 0 sends its agents 0..4 to processes 1, 2, 3, 3 and 1;
   every other process moves nothing. Carrying the moves out is the library's.
   */
  function MoveAgents(rank: Int32): (r: seq<Move>)
    ensures rank != 0 ==> r == []
    ensures rank == 0 ==> |r| == 5
    ensures forall j :: 0 <= j < |r| ==> r[j].agent == AgentKey(j, 0, 0) && 1 <= r[j].destination <= 3
  {
    if rank != 0 then []
    else [Move(AgentKey(0, 0, 0), 1), Move(AgentKey(1, 0, 0), 2), Move(AgentKey(2, 0, 0), 3),
          Move(AgentKey(3, 0, 0), 3), Move(AgentKey(4, 0, 0), 1)]
  }

  /**
   Whenever process 0 still owns its agents 0..4 (as it does from `init`
   until the migration), every move names a distinct agent process 0 owns,
   and sends it to a process other than the one it is currently on.
   */
  lemma MovesNameOwnedAgents(ctx: Context)
    requires Valid(ctx) && ctx.rank == 0
    requires forall j: Int32 :: 0 <= j < 5 ==> AgentKey(j, 0, 0) in ctx.local
    ensures forall m :: m in MoveAgents(0) ==> m.agent in ctx.local && m.destination != 0
    ensures forall m :: m in MoveAgents(0) ==> ctx.local[m.agent].id.currentRank != m.destination
    ensures forall j, j' :: 0 <= j < j' < |MoveAgents(0)| ==> MoveAgents(0)[j].agent != MoveAgents(0)[j'].agent
  {
    forall m | m in MoveAgents(0)
      ensures m.agent in ctx.local && ctx.local[m.agent].id.currentRank != m.destination
    {
      var j :| 0 <= j < |MoveAgents(0)| && MoveAgents(0)[j] == m;
      assert m.agent == AgentKey(j, 0, 0);
    }
  }

  /** `init` on process 0 with at least five agents gives a store in which the moves name owned agents. */
  lemma InitOwnsMovedAgents(ctx: Context, count: Int32)
    requires IsInitialPopulation(ctx, 0, count) && Valid(ctx) && count >= 5
    ensures forall j: Int32 :: 0 <= j < 5 ==> AgentKey(j, 0, 0) in ctx.local
  {
  }
}
