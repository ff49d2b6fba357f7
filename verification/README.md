# TransportABM core in Dafny

A functional model of the sequential logic a Repast HPC agent-based model
defines around the library's distributed machinery: agents playing an
iterated prisoner's dilemma over a shared network, the packages agents and
edges travel in between processes, and the model steps that build the
population, request copies of remote agents, wire the network, cancel
copies, remove agents and plan migrations.

Modules, one per concept:

- `AgentIds` (`agent_ids.dfy`): the library's agent identifier. The identity
  triple (local number, starting rank, type) is `AgentKey`; the current rank
  is metadata. Every field is an `Int32`, the C++ `int` the identifier and
  the package declare, so a local number that does not fit in 32 bits cannot
  be represented.
- `Wire` (`wire.dfy`): the archive as a list of typed scalar fields.
- `SharedContext` (`shared_context.dfy`): the library's store of one process
  as its rank and two maps (local, non-local) from identity triple to agent;
  an agent is local exactly when its current rank is the process's rank, the
  same test the program's own listing uses (`Model.cpp:250`, `:265`). Also
  the request message, and
  `SelectAgents`, the random selection with the random order supplied by
  the caller.
- `Agents` (`agents.dfy`): `RepastHPCAgent`: constructors, `set`,
  `cooperate`, the payoff table and `play`. The getters `getId`, `getC`
  and `getTotal` are the datatype's field selectors `id`, `c`, `total`.
- `Packages` (`packages.dfy`): `RepastHPCAgentPackage`. The datatype
  constructor `Package` is the six-argument constructor; `Encode`/`Decode`
  are its archive in `serialize` order.
- `Network` (`network.dfy`): `ModelCustomEdge`, `ModelCustomEdgeContent`
  and `ModelCustomEdgeContentManager`.
- `PackageExchange` (`package_exchange.dfy`): the package provider and
  receiver of `Model.cpp` (declared in `Model.h` as
  `RepastHPCAgentPackageProvider`/`Receiver`).
- `Model` (`model.dfy`): `init`, `requestAgents`, `connectAgentNetwork`,
  `cancelAgentRequests`, `removeLocalAgents`, `moveAgents`.

Modelling choices:

- The random generator is replaced by its outputs: `play` takes the list of
  uniform draws in [0, 1) it would consume, two per successor (this agent's
  draw, then the opponent's), and `cooperate` compares a draw with c / total.
  With total = 0 the comparison follows IEEE division (c / 0 is +infinity,
  NaN or -infinity).
- Doubles are `real`: no rounding, no overflow.
- A random selection of up to n agents is "the first n of a caller-supplied
  random order".
- `provideContent` and `updateAgent` dereference the pointer the store
  returns, and `createEdge` would build an edge with a null endpoint, so
  each of these members `requires` the looked-up agents to be in the store.
- The package declares its id as `int` (`Agent.h:66`), so the model's
  package id is an `Int32`.
- `connectAgentNetwork` pushes the ego into the candidate vector and then
  calls `selectAgents(5, agents, true)`. With that last argument the library
  keeps the vector's existing agents out of the draw and removes them before
  returning, so the scan runs over the partners alone, at positions 0..4.
  The agent network is built undirected (`Model.cpp:95`); linking only when
  the ego's number is the smaller one is what adds each unordered pair at
  most once, which is why no two edges run a -> b and b -> a.

## Model

| member | source | states |
|---|---|---|
| Agents.NewAgent | TransportABM/src/Agent.cpp:5 | the identifier-only constructor keeps the identifier and starts at c = 100, total = 200, which is a cooperation probability of exactly 1/2 |
| Agents.NewAgentWith | TransportABM/src/Agent.cpp:7 | the three-argument constructor keeps the identifier, c and total it is given: the same agent as a fresh one `set` to those values |
| Agents.Cooperate | TransportABM/src/Agent.cpp:37-40 | the agent cooperates exactly on the draws below its cooperation probability c / total (cut to [0, 1]), so with a uniform draw it cooperates with that probability |
| Agents.Set | TransportABM/src/Agent.cpp:12-17 | `set` keeps the identity triple and sets current rank, c and total to the given values |
| Agents.SetRestoresAndOverrides | TransportABM/src/Agent.cpp:12-17 | setting an agent's own values is the identity; a second `set` overrides the first |
| Agents.Probability | TransportABM/include/Agent.h:53 | the cooperation probability is c / total whenever that ratio lies in [0, 1], and always lies in [0, 1] |
| Agents.CooperateWithoutDivision | TransportABM/src/Agent.cpp:39 | with a positive total, cooperating is equivalent to draw × total < c |
| Agents.FreshAgentCooperatesHalfTheTime | TransportABM/src/Agent.cpp:5-7 | the identifier-only constructor starts at c = 100, total = 200, so a fresh agent cooperates exactly on draws below 1/2; the three-argument constructor keeps exactly the given identifier, c and total |
| Agents.Payoff | TransportABM/src/Agent.cpp:60-62 | the payoff is one of 1, 3, 7, 10, with 7 for mutual cooperation and 3 for mutual defection |
| Agents.PayoffIsPrisonersDilemma | TransportABM/src/Agent.cpp:60-62 | the table satisfies temptation > reward > punishment > sucker, defection dominates, and 2 × reward > temptation + sucker |
| Agents.Accrued | TransportABM/src/Agent.cpp:50-67 | no successors add nothing; with non-negative weights the gain to c is non-negative and at most the gain to total |
| Agents.Play | TransportABM/src/Agent.cpp:42-71 | `play` keeps the identifier, leaves an agent without successors unchanged, and with non-negative weights never lowers c or total and raises c by at most what it raises total |
| Agents.PlayLoop | TransportABM/src/Agent.cpp:50-69 | the accumulate-then-write-back loop computes the same agent as the functional `Play` |
| Agents.AccruedSplits | TransportABM/src/Agent.cpp:53-69 | gains are additive over any split of the successor list, because every decision uses the state from before the loop (c and total are written once, afterwards) |
| Agents.EachEncounterContributes | TransportABM/src/Agent.cpp:63-64 | one more successor adds payoff × confidence × confidence × weight to total, and the same to c only when the agent cooperated |
| Agents.MutualCooperationScenario | TransportABM/src/Agent.cpp:59-69 | two fresh agents on an edge of weight 1 and confidence 1, both cooperating: the player ends with c = 107 and total = 207 |
| Packages.DecodeIsInverseOfEncode | TransportABM/include/Agent.h:79-87 | the archive is id, rank, type, current rank, c, total; reading the fields back in that order succeeds exactly on the archive of a package, and yields that package |
| Packages.Encode | TransportABM/include/Agent.h:79-87 | the archive is the identifier's four fields (id, rank, type, current rank), then c and total, and it decodes back to the package |
| Packages.Decode | TransportABM/include/Agent.h:79-87 | a decoded package's first four fields read back as its identifier and the last two as its c and total |
| Network.SetConfidence | TransportABM/include/Network.h:29 | the setter changes the confidence and nothing else: endpoints and weight stay |
| Network.SetThenGetConfidence | TransportABM/include/Network.h:28-29 | the getter returns what was last set, a second set overrides the first, and restoring the old value restores the edge exactly (endpoints and weight untouched) |
| Network.CreateEdge | TransportABM/include/Network.h:61-64 | both endpoints must be in the store (each is fetched by pointer); the rebuilt edge joins the store's agents for them and has the content's weight and confidence |
| Network.ProvideEdgeContent | TransportABM/include/Network.h:65-68 | the content the edge's constructor (line 43) captures keeps its endpoints, weight and confidence, and reads back from its own archive |
| Network.EdgeRoundTrip | TransportABM/include/Network.h:43-68 | providing content and rebuilding keeps endpoints, weight and confidence; with matching current ranks the edge comes back unchanged |
| Network.EncodeContent | TransportABM/include/Network.h:45-50 | the content archive holds the base fields (source, target, weight) first and confidence last |
| Network.DecodeContent | TransportABM/include/Network.h:45-50 | decoded content reads its source from the first four fields, its target from the next four, its weight from the ninth and its confidence from the tenth |
| Network.DecodeContentIsInverse | TransportABM/include/Network.h:45-50 | content decodes from exactly the archive that encodes it |
| PackageExchange.PackageOf | TransportABM/src/Model.cpp:22-23 | the package carries the agent's triple, current rank, c and total, and its archive is the identifier's archive followed by c and total |
| PackageExchange.ProvidePackage | TransportABM/src/Model.cpp:20-25 | exactly one package is appended, earlier entries are untouched, and it rebuilds the agent it came from |
| PackageExchange.ProvideContent | TransportABM/src/Model.cpp:27-34 | one package per requested identifier, in request order, after the untouched earlier entries; every requested agent must be in the store |
| PackageExchange.ContentAnswersRequest | TransportABM/src/Model.cpp:27-34 | in a consistent store each reply package carries the requested triple and rebuilds the stored agent |
| PackageExchange.CreateAgent | TransportABM/src/Model.cpp:39-43 | the new agent has the package's identifier (current rank included), c and total, and packages back to exactly that package |
| PackageExchange.PackageRoundTrip | TransportABM/src/Model.cpp:39-43 | `createAgent` applied to an agent's package gives back the same identifier (current rank included), c and total, and packaging a created agent gives the package back |
| PackageExchange.UpdateAgent | TransportABM/src/Model.cpp:45-50 | the agent found by triple alone gets the package's current rank, c and total, and is local afterwards exactly when that rank is the store's (a copy whose agent migrated here becomes local); no agent is added or removed and every other agent is unchanged |
| PackageExchange.UpdateMakesCopyFresh | TransportABM/src/Model.cpp:45-50 | after an update the store stays consistent (each agent on the side its current rank implies), the agent keeps its triple and packages to exactly the received package, and repeating the update changes nothing |
| PackageExchange.UpdateFindsByTripleAlone | TransportABM/src/Model.cpp:45-50 | the lookup uses the triple only: packages differing only in current rank update the same agent and give the same store up to that agent's current rank, and the current rank the copy held before does not change the outcome |
| PackageExchange.MigratedCopyBecomesLocal | TransportABM/src/Model.cpp:45-50 | a non-local copy updated with a package naming this process as its current rank becomes local, so a later cancellation no longer evicts it |
| SharedContext.SelectionDegrades | TransportABM/src/Model.cpp:145 | a selection asking for more agents than there are yields all of them, and selecting from a repeat-free order never repeats an agent |
| Model.Init | TransportABM/src/Model.cpp:123-133 | exactly countOfAgents local agents (none for a negative count), with triples (i, rank, 0) for i in [0, countOfAgents), current rank = rank, c = 100, total = 200 |
| Model.GrowPopulation | TransportABM/src/Model.cpp:126-132 | adding agent (i, rank, 0) to the first i agents yields the first i + 1, one more agent than before |
| Model.Retarget | TransportABM/src/Model.cpp:146-151 | each chosen local agent's number becomes a request for agent (number, i, 0), currently on process i, in selection order |
| Model.ExtendRequest | TransportABM/src/Model.cpp:140-153 | handling process i keeps every request property for the processes handled so far |
| Model.RequestAgents | TransportABM/src/Model.cpp:135-154 | the request is tagged with the own rank and cancels nothing; no id names the own rank; each id names a process in the world, has current rank = starting rank and type 0, and reuses the number of an agent chosen from the store (a local one when the store holds no copies, as at tick 1); ids are grouped by process in rank order; each remote process gets exactly its up to five chosen agents |
| Model.ChosenNumbersAreHeld | TransportABM/src/Model.cpp:145-148 | a number chosen from a draw order of the store belongs to an agent the store holds, and to a local one when it holds no copies |
| Model.Candidates | TransportABM/src/Model.cpp:164-167 | the scanned vector holds only partners, the ego excluded: the first min(5, n) agents of the supplied random order of n other agents |
| Model.Link | TransportABM/src/Model.cpp:172 | the edge to the partner at position i leaves the ego, ends at that partner, and has weight i + 1 (1..5) and confidence i × i (0..16) |
| Model.EgoEdges | TransportABM/src/Model.cpp:169-175 | an edge to the partner at position i exists if and only if the ego's local number is smaller than the partner's, and it has weight i + 1 and confidence i × i |
| Model.FirstPartnerCarriesNoConfidence | TransportABM/src/Model.cpp:169-175 | a link to the first partner has weight 1 and confidence 0, so that encounter adds nothing in `play` |
| Model.ConnectAgentNetwork | TransportABM/src/Model.cpp:158-178 | the edges are exactly those the store's local agents add, each iterated once; every edge leaves a local agent and ends at an agent this store holds |
| Model.NetworkEdgesRebuildInStore | TransportABM/include/Network.h:61-68 | each edge the network step builds has both endpoints in this store, and `createEdge` of its content against this store gives the edge back |
| Model.NetworkShape | TransportABM/src/Model.cpp:169-175 | every edge ends at a larger local number, so there are no self-loops and never both a -> b and b -> a; weights are i + 1 and confidences i × i for some position i in 0..4 |
| Model.EgoEdgesHaveDistinctTargets | TransportABM/src/Model.cpp:169-175 | with distinct partners, one agent never links twice to the same target |
| Model.NoParallelEdges | TransportABM/src/Model.cpp:160-177 | since local agents are distinct and partners are drawn without replacement, no ordered pair of agents gets two edges |
| Model.ListCancellations | TransportABM/src/Model.cpp:184-191 | one cancellation per iterated non-local agent, carrying its identifier, in iteration order, tagged with the own rank |
| Model.EvictAll | TransportABM/src/Model.cpp:194-199 | exactly the cancelled triples leave the non-local side; local agents and the other copies stay unchanged |
| Model.CancelAgentRequests | TransportABM/src/Model.cpp:180-200 | every non-local agent is cancelled exactly once; afterwards no non-local agent remains, the local agents are unchanged and the store stays consistent |
| Model.RemoveLocalAgents | TransportABM/src/Model.cpp:203-213 | agents (0..4, rank, 0) are gone afterwards, missing ones are skipped, and every other agent is unchanged |
| Model.RemoveIsIdempotent | TransportABM/src/Model.cpp:207-211 | removing a second time changes nothing |
| Model.RemoveAfterInit | TransportABM/src/Model.cpp:207-211 | after `init` with at least five agents, removal leaves exactly five fewer local agents |
| Model.MoveAgents | TransportABM/src/Model.cpp:215-234 | only process 0 moves agents: agents 0..4 of rank 0, each to a process in 1..3 |
| Model.MovesNameOwnedAgents | TransportABM/src/Model.cpp:218-230 | in any consistent store of process 0 that owns agents 0..4, every move names a distinct owned agent and sends it to a process other than its current one |
| Model.InitOwnsMovedAgents | TransportABM/src/Model.cpp:123-133 | `init` on process 0 with at least five agents leaves agents 0..4 owned, as the migration plan needs |

## Left out

- The library's collective operations are not modelled: sending requests and replies (`RepastProcess::requestAgents`), `synchronizeAgentStatus`, `synchronizeAgentStates`, carrying out `moveAgent`, `agentRemoved` notifications, and `SharedNetwork::addEdge`, `successors`, `findEdge`. Only their inputs (requests, packages, edges, move plans) and the store changes the repository's own code makes are modelled.
- The random generator: draws are inputs; random selections are caller-supplied orders.
- IEEE-754 rounding: doubles are `real`.
- `doSomething`: the console listing and the driver loop, which plays at most countOfAgents randomly selected local agents (`Model.cpp:273-279`), so after the migration at tick 3 some agents on a process holding more than countOfAgents sit out a tick; the per-agent game it runs is `Agents.Play`.
- Properties loading, the CSV data sets and `DataSource_*::getData` (whose integer sums truncate doubles), `recordResults`, `initSchedule` and the model's constructor and destructor: configuration, I/O and scheduling owned by the library.
- `Main.cpp` (process bootstrap) and `Model.h` (declarations only).
- `initAgent` and `updateDesires`: empty functions.
- The edge constructors that leave confidence uninitialised: no defined value to model.
- The library's archive layout for an agent identifier and for the base edge content is assumed to be its four integer fields, and source, target, weight, in declaration order; the archives are typed field lists rather than bytes.
- Model.RequestAgents: the random orders are inputs, required to draw agents of the store without repeats.
- Model.CancelAgentRequests: the library's iteration order over non-local agents is an input, required to list each non-local agent exactly once.
- Model.ConnectAgentNetwork: edges are a list of what is passed to `addEdge`; whether the library would reject a repeated pair is not modelled (Model.NoParallelEdges shows none arises). The store's iteration order over local agents and each partner draw order are inputs, required to list each local agent once and to draw store agents other than the ego without repeats; a draw order need not list every other agent, so the model does not promise that min(5, N - 1) partners are scanned.
- Packages.Decode: the archive is a typed field list, so reading a `double` where an `int` was written fails in the model; the binary archive carries no field kinds and has no such check.
- Network.DecodeContent: the archive is a typed field list, so a field of the wrong kind fails in the model; the binary archive carries no field kinds and has no such check.
- Model.NetworkEdgesRebuildInStore: rebuilding an edge on a receiving process depends on that process holding copies of both endpoints, which the library's synchronisation arranges; that is not modelled, and the lemma is stated against the building store.
