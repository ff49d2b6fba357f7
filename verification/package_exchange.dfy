/**
 The model's package provider and receiver: how an agent is flattened into a
 package on the owning process, and how a package becomes a new non-local
 agent or refreshes an existing one on the receiving process.
 */
module PackageExchange {
  import opened AgentIds
  import opened Agents
  import opened Packages
  import opened SharedContext
  import opened Wire

  /** The package built for an agent: its identifier's four fields, then c and total. */
  function PackageOf(a: Agent): (p: Package)
    ensures p.Key() == a.id.Key() && p.currentRank == a.id.currentRank
    ensures p.c == a.c && p.total == a.total
    ensures Encode(p) == EncodeId(a.id) + [RealField(a.c), RealField(a.total)]
  {
    Package(a.id.num, a.id.startingRank, a.id.agentType, a.id.currentRank, a.c, a.total)
  }

  /** `providePackage`: appends the agent's package and leaves what `out` held untouched. */
  function ProvidePackage(a: Agent, out: seq<Package>): (r: seq<Package>)
    ensures |r| == |out| + 1
    ensures r[..|out|] == out
    ensures CreateAgent(r[|out|]) == a
  {
    out + [PackageOf(a)]
  }

  /** `createAgent`: a new agent with the package's identifier (current rank included), c and total. */
  function CreateAgent(p: Package): (a: Agent)
    ensures a.id == AgentId(p.id, p.rank, p.agentType, p.currentRank)
    ensures a.c == p.c && a.total == p.total
    ensures PackageOf(a) == p
  {
    NewAgentWith(AgentId(p.id, p.rank, p.agentType, p.currentRank), p.c, p.total)
  }

  /** Packaging and rebuilding are inverse in both directions. */
  lemma PackageRoundTrip(a: Agent, p: Package)
    ensures CreateAgent(PackageOf(a)) == a
    ensures PackageOf(CreateAgent(p)) == p
  {
  }

  /**
   `provideContent`: one package per requested identifier, in request order,
   appended to `out`. Each requested agent is fetched by pointer, so each
   must be in the store.
   */
  method ProvideContent(ctx: Context, req: AgentRequest, out: seq<Package>) returns (r: seq<Package>)
    requires forall i :: 0 <= i < |req.requests| ==> Resolves(ctx, req.requests[i].Key())
    ensures |r| == |out| + |req.requests|
    ensures r[..|out|] == out
    ensures forall i :: 0 <= i < |req.requests| ==>
              r[|out| + i] == PackageOf(Lookup(ctx, req.requests[i].Key()))
  {
    var ids := req.requests;
    r := out;
    var i := 0;
    while i < |ids|
      invariant 0 <= i <= |ids|
      invariant |r| == |out| + i
      invariant r[..|out|] == out
      invariant forall j :: 0 <= j < i ==> r[|out| + j] == PackageOf(Lookup(ctx, ids[j].Key()))
    {
      r := ProvidePackage(Lookup(ctx, ids[i].Key()), r);
      i := i + 1;
    }
  }

  /** In a valid store every package in a reply carries the triple that was asked for. */
  lemma ContentAnswersRequest(ctx: Context, ids: seq<AgentId>, packages: seq<Package>)
    requires Valid(ctx)
    requires |packages| == |ids|
    requires forall i :: 0 <= i < |ids| ==> Resolves(ctx, ids[i].Key())
    requires forall i :: 0 <= i < |ids| ==> packages[i] == PackageOf(Lookup(ctx, ids[i].Key()))
    ensures forall i :: 0 <= i < |ids| ==> packages[i].Key() == ids[i].Key()
    ensures forall i :: 0 <= i < |ids| ==> CreateAgent(packages[i]) == Lookup(ctx, ids[i].Key())
  {
    forall i | 0 <= i < |ids|
      ensures packages[i].Key() == ids[i].Key()
    {
      SingleResolution(ctx, ids[i].Key());
    }
  }

  /**
   `updateAgent`: finds the agent by the package's triple alone and overwrites
   its current rank, c and total. The agent must be in the store (it is
   fetched by pointer). Its new current rank decides its side: it is local
   afterwards exactly when that rank is the store's.
   */
  function UpdateAgent(ctx: Context, p: Package): (r: Context)
    requires Resolves(ctx, p.Key())
    ensures r.rank == ctx.rank
    ensures forall k :: Resolves(r, k) <==> Resolves(ctx, k)
    ensures p.Key() in r.local <==> p.currentRank == ctx.rank
    ensures p.Key() in r.nonLocal <==> p.currentRank != ctx.rank
    ensures Lookup(r, p.Key()) == Set(Lookup(ctx, p.Key()), p.currentRank, p.c, p.total)
    ensures forall k :: k != p.Key() ==> (k in r.local <==> k in ctx.local) && (k in r.nonLocal <==> k in ctx.nonLocal)
    ensures forall k :: k in ctx.local && k != p.Key() ==> r.local[k] == ctx.local[k]
    ensures forall k :: k in ctx.nonLocal && k != p.Key() ==> r.nonLocal[k] == ctx.nonLocal[k]
  {
    var k := p.Key();
    var updated := Set(Lookup(ctx, k), p.currentRank, p.c, p.total);
    if p.currentRank == ctx.rank then ctx.(local := ctx.local[k := updated], nonLocal := ctx.nonLocal - {k})
    else ctx.(local := ctx.local - {k}, nonLocal := ctx.nonLocal[k := updated])
  }

  /**
   After an update in a valid store the store stays valid, the identity triple
   is kept, and the agent now packages to exactly the package received: the
   copy is as fresh as its owner was when it packaged it.
   */
  lemma UpdateMakesCopyFresh(ctx: Context, p: Package)
    requires Valid(ctx)
    requires Resolves(ctx, p.Key())
    ensures Valid(UpdateAgent(ctx, p))
    ensures Lookup(UpdateAgent(ctx, p), p.Key()).id.Key() == p.Key()
    ensures PackageOf(Lookup(UpdateAgent(ctx, p), p.Key())) == p
    ensures UpdateAgent(UpdateAgent(ctx, p), p) == UpdateAgent(ctx, p)
  {
    SingleResolution(ctx, p.Key());
  }

  /**
   The receiver finds the agent by the package's triple alone. Packages that
   differ only in current rank update the same agent and leave the same store
   apart from that agent's current rank, and the current rank the store's copy
   held before makes no difference to the outcome.
   */
  lemma UpdateFindsByTripleAlone(ctx: Context, p: Package, q: Package, staleRank: Int32)
    requires Valid(ctx)
    requires Resolves(ctx, p.Key())
    requires q == p.(currentRank := q.currentRank)
    ensures forall k :: k != p.Key() ==>
              GetAgent(UpdateAgent(ctx, q), k) == GetAgent(UpdateAgent(ctx, p), k) == GetAgent(ctx, k)
    ensures var a := Lookup(UpdateAgent(ctx, p), p.Key());
            Lookup(UpdateAgent(ctx, q), p.Key()) == Set(a, q.currentRank, a.c, a.total)
    ensures var held := Lookup(ctx, p.Key());
            var stale := UpdateAgent(ctx, p.(currentRank := staleRank, c := held.c, total := held.total));
            UpdateAgent(stale, p) == UpdateAgent(ctx, p)
  {
    var k := p.Key();
    var held := Lookup(ctx, k);
    var stale := UpdateAgent(ctx, p.(currentRank := staleRank, c := held.c, total := held.total));
    var a := UpdateAgent(stale, p);
    var b := UpdateAgent(ctx, p);
    assert Lookup(a, k) == Lookup(b, k);
    forall x
      ensures (x in a.local <==> x in b.local) && (x in a.local ==> a.local[x] == b.local[x])
      ensures (x in a.nonLocal <==> x in b.nonLocal) && (x in a.nonLocal ==> a.nonLocal[x] == b.nonLocal[x])
    {
    }
    assert a.local == b.local && a.nonLocal == b.nonLocal;
  }

  /**
   An agent that migrated here arrives as an update of the copy this process
   held: with the package's current rank equal to the store's rank the agent
   moves to the local side, and the store stays valid.
   */
  lemma MigratedCopyBecomesLocal(ctx: Context, p: Package)
    requires Valid(ctx)
    requires p.Key() in ctx.nonLocal && p.currentRank == ctx.rank
    ensures Valid(UpdateAgent(ctx, p))
    ensures p.Key() in UpdateAgent(ctx, p).local && p.Key() !in UpdateAgent(ctx, p).nonLocal
    ensures UpdateAgent(ctx, p).local[p.Key()] == CreateAgent(p)
  {
    UpdateMakesCopyFresh(ctx, p);
  }
}
