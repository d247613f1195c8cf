# BigFleet decision cycle: verified model

BigFleet's shard decides, cycle by cycle, which cluster gets which machine and what is given back. This
project models that decision cycle in Dafny and proves what holds of it over every input and every
interleaving: who ends up holding a machine, why nobody with a better claim is passed over, why the cycle
ends, what is preempted and reclaimed, and that a served demand comes to rest. Beside it stand the shard's
pending-action ledger and parking ages, and the coordinator's replicated state machine.

`dafny verify dfyconfig.toml` checks everything.

## Layout

| modules | what they hold |
|---|---|
| Resources, Fleet, Scoring, Order, Sequences | resource vectors, machines, Needs, matching, precedence, cost and victim formulas |
| Views, Inventory, Pools, PoolCosts | plain filters and sorts of the machine list; the store with its indexed snapshot; the pool cache; when a pool is in cost order |
| Ledger, Broker | the claim ledger and what a transaction means on it; the broker's shared state |
| Cycle, CycleSafety, CycleLaws, CycleEnvy, CycleTermination, BasicWalk | the workers as a step system; safety, what each proposal does, envy-freeness and termination of every run; what the two-pass walk yields |
| SameBucket, SameRule, SameSupply, SameChoice, DomainTable | the choice of a gang's domain, what it prefers, interned vectors, and their refinement to named resource maps |
| Seed, SeedSafety, SeedStats, SeedChoice, SeedReserve, SeedTail, SeedStability, SeedGangs, PrePass | the pre-pass that credits existing supply: meaning, invariants, what a gang weighs, takes and reserves, what is left unclaimed, fixed points, implementation |
| Candidates | the gang and spread candidate searches |
| Assign, Preempt, PreemptSafety, Reclaim | the three phases |
| CycleOutcome | theorems about whole cycles, from the pre-pass to the actions |
| Normalize, NormalizeLaws, NormalizeMeaning, Demand | demand normalisation, the roll-up and the demand table |
| Reconcile, Actuation, Parking | taking provider records in, the pending-action protocol, acquisition parking |
| Coordinator | the replicated state machine, its snapshots and its log |

The pattern throughout: what the program does step by step is a method or a class whose contract equates the
outcome with a plain specification function, and the theorems are lemmas about that function. The worker
protocol is a step system: one move is one acquisition of the state lock or one channel operation, so a run
is any sequence of enabled moves, and the theorems quantify over all of them. The broker's `Propose` and the
step system share one definition of acceptance (`Accepts`) and of the committed ledger (`Commit`).

## Reading the model

- Quantities are natural numbers in milli-units; prices and scores are reals; machine ids are natural numbers,
  whose order stands for the order of the id strings. A penalty may have no bound, and a cost may be infinite or
  not a number; costs compare as floating-point numbers do.
- A Profile is identified by its fingerprint; the model uses the Profile itself as the key. A Need is
  identified by its position in the cycle's demand, as the program identifies it by its address.
- Loops over Go maps pick keys in an arbitrary order, so what is proved holds for every order.
- `settled` and `exhausted` in the step system only observe. A Need is settled when one of its runs ended with
  budget left and it has lost no claim since; it is exhausted when a run spent its budget, or a lost claim left
  none to re-queue with.
- `free` in the candidate searches holds the answers the shared state gave when each machine was asked. Other
  workers may act between two questions, so the answers are a parameter.

Four places where the code falls short of what it is meant for are stated exactly, each with a concrete case:
the phase 2 shortcut for Profiles without pinned types (`PreemptSafety.ShortcutExact`,
`PreemptSafety.ShortcutLoses`), the 32-bit priority gap behind the drain grace (`Scoring.GraceExact`,
`Scoring.GraceWraps`), machines that carry a pinned instance type only as a label (`Views.PoolMisses`,
`Pools.PoolLoses`), and the cost order of a Speculative pool under the pinned penalty bucket
(`PoolCosts.CostOrderExact`, `PoolCosts.PinnedTakesSpot`).

## Model

| member | source | states |
|---|---|---|
| `CycleSafety.LedgerSafety` | pkg/decision/occ/broker.go:52-169 | Over every run of any number of workers from the pre-pass state: no claim is ever dropped, a machine changes holder only for strictly higher precedence, every pre-pass claim keeps its holder and record, and every other claim is on an Idle or Speculative machine its Need may be offered |
| `CycleLaws.HolderRises` | pkg/decision/occ/types.go:68-76 | Between any two points of any run the holder of a machine stays, or gives way to a Need of higher priority, at equal priority of higher interruption penalty, at both equal of higher reclamation penalty |
| `CycleLaws.GangWhole` | pkg/decision/occ/cycle.go:396-411 | The proposal of a Need with a Same requirement whose MinUnit does not cover its aggregate leaves the ledger as it is or gives the Need every machine it named |
| `CycleLaws.GangsCommitWhole` | pkg/decision/occ/cycle.go:396-411 | The same of every proposal in every run |
| `CycleLaws.OthersTakeWhatTheyCan` | pkg/decision/occ/cycle.go:396-411 | The proposal of any other Need, when its bucket is as observed, moves to it exactly the machines it named that are unclaimed or held at lower precedence, whatever the rest of the list; otherwise nothing moves |
| `CycleLaws.CommitStalesOthers` | pkg/decision/occ/broker.go:52-74 | Once a proposal of a bucket commits, every other proposal of that bucket observed before is refused, however much later in the run it is made |
| `CycleLaws.OneCommitAState` | pkg/decision/occ/cycle.go:303-314 | A Need with a topology constraint commits at most once from each machine state in one run |
| `CycleLaws.CommitRecords` | pkg/decision/occ/broker.go:138-156 | A machine changes hands only if the proposal named it, and its record then carries the retries the proposer's run had left |
| `CycleLaws.LosersComeBack` | pkg/decision/occ/broker.go:119-169 | Exactly the Needs that a proposal takes machines from are sent back, each once, with one retry less than the least its lost records had left |
| `CycleLaws.SetsOutWithDeficit` | pkg/decision/occ/cycle.go:337-348 | A plain Need's walk sets out with exactly what is lacking in each dimension, and does not set out when nothing is |
| `CycleSafety.GangSafety` | pkg/decision/occ/cycle.go:365-381 | In every reachable state all machines a Same Need holds carry its recorded non-empty domain, and a parked Same Need holds no Idle or Speculative machine |
| `CycleSafety.MoveKeeps` | pkg/decision/occ/cycle.go:255-318 | Every single worker action keeps the cycle invariant: entries and workers point at Needs of the demand, the ledger advances, every claim is on a machine that may serve its holder. Which proposals commit whole is stated by CycleLaws.GangWhole and OthersTakeWhatTheyCan |
| `CycleEnvy.NoJustifiedEnvy` | pkg/decision/occ/cycle.go:255-318 | At the barrier, under any interleaving, a plain Need that is still short either spent its budget or had a run end with budget left after its last lost claim; in the latter case every machine of its Idle or Speculative pool that fits it is held, by a Need that does not yield to it: not of lower priority, nor at equal priority of lower interruption penalty, nor at both equal of lower reclamation penalty |
| `CycleEnvy.MoveAccounts` | pkg/decision/occ/cycle.go:274-317 | No short Need is ever forgotten: after any action it is covered, settled, out of budget, queued, or carried by a worker |
| `CycleEnvy.ScanStep` | pkg/decision/occ/candidates.go:42-94 | Each read of the two-pass walk keeps what an empty candidate list proves: everything passed in pass 1 is claimed, everything passed in pass 2 is held out of reach |
| `BasicWalk.BasicTakes` | pkg/decision/occ/candidates.go:42-94 | Whatever the other workers commit between its reads, the walk puts forward the shortest list that covers the deficit, or everything, of the fitting machines it found unclaimed, in pool order, followed by those it found held by a Need that is outbid |
| `CycleTermination.Terminates` | pkg/decision/occ/cycle.go:274-317 | Every run of the workers, under any interleaving, is no longer than a potential computed from its start |
| `CycleTermination.MoveDecreases` | pkg/decision/occ/cycle.go:274-317 | Every action strictly lowers the potential: a commit raises the claim rank of at least one machine, everything else spends budget, a queue entry or a walk position |
| `CycleTermination.EvictionBound` | pkg/decision/occ/broker.go:119-132 | Machines change hands by displacement at most (number of machines) times (distinct precedences less one) in all |
| `CycleTermination.Progress` | pkg/decision/occ/cycle.go:114-137 | Short of the barrier some action is always enabled, so a run that cannot be extended is at the barrier |
| `CycleTermination.OneMachine` | pkg/decision/occ/broker.go:88-92 | A commit never lowers a machine's claim rank, strictly raises it for every machine it takes, and by at least one precedence level for every machine it takes away |
| `Cycle.DeficitStaysZero` | pkg/decision/occ/cycle.go:337-348 | A covered Need stays covered as long as it loses no machine |
| `Broker.SharedState.Propose` | pkg/decision/occ/broker.go:52-169 | One transaction: it commits exactly when the bucket is unchanged since it was observed and the mode accepts what can be taken; a conflict changes nothing; a commit yields the committed ledger, in which every changed record was outbid in priority, then interruption, then reclamation; it moves only that bucket's number, returns exactly the machines taken and one re-queue entry per evicted Need with its least budget less one; the two claim maps stay mutual inverses |
| `Broker.SharedState.SeedClaim` | pkg/decision/occ/state.go:142-150 | Writes one claim into both maps; they stay mutual inverses provided the machine had no other holder |
| `Broker.SharedState.Release` | pkg/decision/occ/broker.go:119-132 | Drops exactly the evicted claims from both maps and collects the least remaining budget per evicted Need |
| `Broker.SharedState.Plan` | pkg/decision/occ/broker.go:76-93 | Splits the proposed machines into unclaimed, displaceable and conflicting ones, exactly |
| `Broker.PlanAccepts` | pkg/decision/occ/broker.go:96-107 | The mode switch over the three counts accepts a plan exactly when the proposal is acceptable against the ledger |
| `Ledger.CommitAdvances` | pkg/decision/occ/broker.go:138-156 | A committed proposal adds exactly the taken machines to the proposer, removes exactly the evicted ones from each other Need, and takes only from strictly lower precedence |
| `Ledger.BlockedForever` | pkg/decision/occ/state.go:208-216 | A machine out of reach at some precedence stays out of reach for the rest of the cycle |
| `Fleet.PrecedenceOrder` | pkg/decision/occ/types.go:68-76 | The precedence order is a strict total order on precedences; which one is stated in fields by Broker.SharedState.Propose and CycleLaws.HolderRises |
| `PrePass.SeedConfiguredSupply` | pkg/decision/occ/seed.go:55-136 | The imperative pre-pass, Need by Need in stable priority order, leaves exactly the claims, recorded domains, satisfiability marks, used-up acquirable machines and residuals of its step-by-step specification, whose properties are the rows below |
| `PrePass.SeedGang` | pkg/decision/occ/seed.go:200-341 | A gang's turn over interned vectors, one-pass domain choice and caches equals the specification over named resource maps; what a turn takes, records and reserves is stated by SeedChoice.GangTakes, SeedChoice.SatisfiableExactly and SeedReserve.Reserves |
| `SeedReserve.Reserves` | pkg/decision/occ/seed.go:333-339 | Exactly when a gang that is not parked is left with a residual in its domain, it reserves: acquirable machines of that domain that host a unit and that no earlier gang reserved, none reserved needlessly, and together covering the residual unless no such machine is left out |
| `SeedReserve.ReservedApart` | pkg/decision/occ/seed.go:333-339 | Over the whole pre-pass, what two gangs reserve is disjoint, and no later gang counts a machine an earlier one reserved, in any domain |
| `SeedStats.StatsAre` | pkg/decision/occ/seed.go:200-298 | A domain is weighed by exactly the machines of the fleet there that fit the gang and are nobody's: those of its cluster or being created for it, its own among them, and, unless it is parked, the Idle and Speculative ones its types let it see that no earlier gang reserved; each counted once |
| `SameSupply.AcquirableIn` | pkg/decision/occ/samesupply.go:144-179 | A matching machine is acquirable exactly when it is Idle or Speculative and, for pinned types, declares its type |
| `SeedChoice.SatisfiableExactly` | pkg/decision/occ/seed.go:206-305 | A gang is recorded satisfiable exactly when the free creditable and acquirable machines of some one domain together cover its demand, and then those of its recorded domain do |
| `SeedChoice.GangTakes` | pkg/decision/occ/seed.go:307-331 | A gang left short has claimed every free creditable machine of its domain that fits, and it claims one that is not its own only after all its own there |
| `SeedChoice.ParkedTurn` | pkg/decision/occ/seed.go:200-341 | The turn of a parked gang does not depend on acquirable supply at all |
| `Seed.SupplyIn` | pkg/decision/occ/seed.go:90-127 | A Need may be credited with exactly the Configured and Configuring machines of its cluster and the Creating ones of its Profile, for a gang only those of its own Group |
| `PrePass.ChooseDomain` | pkg/decision/occ/seed.go:200-305 | The domain chosen from the built table is the one the rule picks from the plain per-domain statistics, and its member list and satisfiability are the plain ones |
| `PrePass.SeedPlain` | pkg/decision/occ/seed.go:90-127 | A plain Need's turn is the greedy walk over Configured, then Configuring, then its own Creating machines |
| `PrePass.OwnFirst` | pkg/decision/occ/seed.go:355-387 | The reordering puts the gang's own machines first and keeps the order within both parts |
| `PrePass.OwnCreating` | pkg/decision/occ/seed.go:146-168 | In-flight credit goes to exactly the Creating machines attributed to the Need's Profile, and for a gang to its Group |
| `PrePass.OrderIsPriorityOrder` | pkg/decision/occ/seed.go:55-70 | The walk order holds every Need once, by priority, equals in demand order |
| `SeedSafety.SeededInv` | pkg/decision/occ/seed.go:55-136 | After the pre-pass each claim is its Need's own record on a fitting machine of its supply, inside its recorded domain for a gang; each residual is the demand less what the Need holds; and a non-Same Need left short has every fitting machine of its supply claimed |
| `SeedSafety.SeedStarts` | pkg/decision/occ/cycle.go:97-134 | The pre-pass hands the workers exactly the state the cycle theorems start from: claims on bound or in-flight machines only, co-located gangs, and a queue that holds each Need left short once, with the full budget, and nothing else |
| `Seed.WalkExhausts` | pkg/decision/occ/seed.go:90-111 | A credit walk that ends short has claimed everything in its supply that fits |
| `Seed.WalkResidual` | pkg/decision/occ/seed.go:90-130 | The walk's running residual is the saturating demand less everything its Need now holds |
| `Seed.WalkWithout` | pkg/decision/occ/seed.go:90-111 | Deleting from the supply any machines a walk leaves unclaimed changes neither its claims nor its residual |
| `SeedTail.SeedKeepsBest` | pkg/decision/occ/seed.go:90-111 | After the whole pre-pass, what a non-Same Need holds of its supply comes before every fitting machine of it left unclaimed: Configured before Configuring before Creating, and within each of the first two the cheaper, then the costlier to reclaim, then the lesser id |
| `SeedTail.SeedByPriority` | pkg/decision/occ/seed.go:55-136 | Where the pre-pass leaves a non-Same Need short, every machine of its supply that fits it is held, by a Need of no lower priority |
| `SeedStability.ServedGang` | pkg/decision/occ/seed.go:200-341 | A served gang is a fixed point: if at its turn its own machines in one domain cover its demand and those of no other domain do, the pre-pass picks that domain, claims only the gang's own machines there, leaves no residual and uses up no acquirable machine, whatever else any domain holds |
| `SeedGangs.GangsServed` | pkg/decision/occ/seed.go:200-341 | For a demand of gangs with pairwise distinct attribution, each served by its own machines in exactly one domain at the start: the whole pre-pass leaves every residual zero, claims own machines only and speaks for no acquirable one |
| `SeedGangs.GangsRepeat` | pkg/decision/occ/seed.go:200-341 | Give back any machines that pre-pass left unclaimed and let acquirable supply change at will: the whole pre-pass comes out the same, domains and all |
| `SeedStability.FoldWithout` | pkg/decision/occ/seed.go:81-136 | For demand without Same, removing any set of unclaimed machines leaves every claim and every residual of the pre-pass as it was |
| `CycleOutcome.NeededIsKept` | pkg/decision/phase3_reclaim.go:77-134 | If a cycle leaves a non-Same Need unsatisfied, phase 3 of that cycle drains no Configured machine of its cluster that matches it and covers its MinUnit; for every interleaving of the workers |
| `CycleOutcome.ReleasedTail` | pkg/decision/phase3_reclaim.go:77-134 | What a cycle gives back is the tail of the keep-priority order: a fitting Configured machine it drains comes after every Configured machine that a non-Same Need of the cluster holds; for every interleaving |
| `CycleOutcome.NoOscillation` | pkg/decision/occ/seed.go:81-136 | For demand without Same whose pre-pass covers every Need: give back any unclaimed machines, among them all unclaimed Configured ones of the ready clusters, and the next cycle on the same demand makes the same claims and emits no acquisition, preemption or reclaim |
| `CycleOutcome.GangsRest` | pkg/decision/occ/seed.go:200-341 | The same for a demand of served gangs: after giving back all unclaimed Configured machines of the ready clusters, the next cycle claims the same own machines and emits no acquisition, preemption or reclaim |
| `CycleOutcome.CoveredQuiet` | pkg/decision/occ/cycle.go:129-135 | A cycle whose pre-pass covers every Need acquires nothing, reports nothing short and preempts nothing, gangs included |
| `CycleOutcome.SeedSurvives` | pkg/decision/occ/cycle.go:71-188 | The pre-pass's claims are all in the final ledger of a full cycle, and whatever was added was earned |
| `SameBucket.ChooseSameBucket` | pkg/decision/occ/samebucket.go:126-200 | The one-pass choice returns -1 exactly when no bucket holds a machine, else a bucket that outranks every other non-empty one; what it is to outrank is stated without that order by SameRule.ChosenPreferred and SameRule.CoveringChosen |
| `SameRule.ChosenPreferred` | pkg/decision/occ/samebucket.go:126-200 | Against any other non-empty domain the chosen one covers if the other does; if neither covers, the other does not supply at least as much of every wanted dimension, capped at the want, and strictly more of one; if both cover and their capped creditable and own supply agree, the other's total is not smaller in one wanted dimension and no larger in the rest; and where supply is equal it has more machines or as many and the lesser value |
| `SameRule.CoveringChosen` | pkg/decision/occ/samebucket.go:150-170 | The chosen domain covers the demand exactly when some non-empty domain does |
| `SameRule.CoveringChoice` | pkg/decision/occ/samebucket.go:150-170 | The same for the choice over named per-domain supply |
| `SameBucket.OrderIndependent` | pkg/decision/occ/samebucket.go:126-200 | The chosen bucket does not depend on the order the buckets come in, nor on empty ones among them |
| `SameBucket.OutranksTransitive` | pkg/decision/occ/samebucket.go:126-200 | The documented order is transitive, although it compares different fields for satisfiable and unsatisfiable domains |
| `SameBucket.OutranksTotal` | pkg/decision/occ/samebucket.go:126-200 | The documented order is irreflexive, asymmetric and decides between any two domains of distinct value |
| `SameBucket.CappedRatio` | pkg/decision/occ/samebucket.go:273-290 | A capped contribution reaches one exactly when the dimension is covered |
| `SameChoice.ScoreNamed` | pkg/decision/occ/samebucket.go:273-290 | The score over interned positions is the sum over the named dimensions of the demand, whatever order the names were interned in |
| `SameChoice.ChoiceRefined` | pkg/decision/occ/samebucket.go:126-200 | The choice over interned buckets listed in any order is the rule's choice over the plain per-domain resource maps |
| `SameChoice.OwnDomainChosen` | pkg/decision/occ/samebucket.go:126-200 | A domain whose own machines cover the demand, when no other domain's do, is chosen, whatever totals and counts the others have |
| `SameSupply.SameSupplyIndex.Dim` | pkg/decision/occ/samesupply.go:73-80 | Interning only appends names, keeps them distinct, and returns the position of the name |
| `SameSupply.SameSupplyIndex.ParseVec` | pkg/decision/occ/samesupply.go:92-109 | The parsed vector stands for the named resource map; earlier vectors keep their meaning |
| `SameSupply.DenotesLater` | pkg/decision/occ/samesupply.go:92-109 | A vector parsed before more dimensions were interned still stands for the same resource map |
| `SameSupply.CoversRefines` | pkg/decision/occ/samesupply.go:127-137 | VecCovers on vectors of any lengths agrees with Covers on the resource maps |
| `SameSupply.SumRefines` | pkg/decision/occ/samesupply.go:114-122 | VecAdd agrees with AddResources |
| `SameSupply.VecAdd` | pkg/decision/occ/samesupply.go:114-122 | The growing addition computes the position-wise sum, absent positions reading zero |
| `SameSupply.PositiveRefines` | pkg/decision/occ/samesupply.go:260-267 | vecHasPositive agrees with the negation of IsZero, also once entries went below zero |
| `SameSupply.LoweredRefines` | pkg/decision/occ/samesupply.go:245-255 | Unsaturated subtraction keeps standing for the saturated residual |
| `SameSupply.SameSupplyIndex.Domains` | pkg/decision/occ/samesupply.go:144-179 | The cached grouping lists, per value of the Same key, exactly the matching acquirable machines in pool source order |
| `SameSupply.SameSupplyIndex.AcquirableTotals` | pkg/decision/occ/samesupply.go:191-211 | Per domain, count and joint total of exactly the acquirable machines that are not taken and host a unit; domains without any are left out |
| `SameSupply.SameSupplyIndex.ConsumeAcquirable` | pkg/decision/occ/samesupply.go:233-256 | Marks exactly the machines a greedy walk with saturating subtraction would use: it stops where that walk stops |
| `SameSupply.RunDown` | pkg/decision/occ/samesupply.go:241-255 | The unsaturated run over one domain takes the same machines as the saturating one |
| `DomainTable.TableLists` | pkg/decision/occ/seed.go:206-298 | The table built machine by machine, merged with the acquirable totals in any order, lists every domain's plain statistics once, with the domain's creditable machines |
| `Candidates.FindSame` | pkg/decision/occ/candidates.go:126-286 | Every candidate lies in the pool, fits, and carries the bucket's value; with a recorded domain the candidates are the shortest covering prefix (or all) of that domain's free machines in pool order; without one they are that of the best domain, and there are none if no domain has a free machine |
| `Candidates.AllFreeExactly` | pkg/decision/occ/candidates.go:170-286 | What a domain offers the search is exactly its fitting machines that were answered to be free, in pool order |
| `Candidates.UntilMeans` | pkg/decision/occ/candidates.go:170-286 | A candidate list is the shortest prefix of the machines offered that covers the deficit, or all of them |
| `Candidates.BestDomainMeans` | pkg/decision/occ/candidates.go:170-258 | Without a recorded domain the search settles on one that covers if any does, of those on the one with the cheapest first machine; else on one with the most free machines, of those on the cheapest first machine; then on the lesser name |
| `Candidates.BestFree` | pkg/decision/occ/candidates.go:170-258 | The domain the search settles on beats every other that has a free machine (covering the deficit first, then the cheapest head; else the most machines), and there is none only if no domain has one |
| `Candidates.FindSpread` | pkg/decision/occ/candidates.go:299-392 | Each pick is the cheapest next machine of a domain that may take one more; the list is the shortest that covers, keeps the skew at every prefix, and falls short only when every domain is used up or at the limit |
| `Candidates.SpreadCheapest` | pkg/decision/occ/candidates.go:341-378 | Each pick costs no more than the next machine of any other domain that could take one more within the skew |
| `Candidates.SpreadEven` | pkg/decision/occ/candidates.go:341-384 | At every prefix of the candidate list the counts of any two domains that had a free fitting machine differ by at most max(1, maxSkew), unused domains included |
| `Candidates.SpreadStops` | pkg/decision/occ/candidates.go:341-378 | A list that ends short has used every free machine of a domain or left it a full skew ahead of another |
| `Candidates.LimitIsSkew` | pkg/decision/occ/candidates.go:345-375 | A domain below minimum count plus skew is exactly one that can take a machine without breaking the skew against any domain |
| `Candidates.SameOffers` | pkg/decision/occ/cycle.go:365-381 | What the gang search returns is what the cycle's step system lets a worker put forward |
| `Candidates.SpreadOffers` | pkg/decision/occ/cycle.go:377-379 | What the spread search returns is what the cycle's step system lets a worker put forward |
| `Pools.PoolCache.Get` | pkg/decision/occ/poolcache.go:64-79 | The cached pool is always the freshly sorted one, whatever was asked before |
| `Pools.PoolCache.Build` | pkg/decision/occ/poolcache.go:88-125 | The pool, built with its single-type shortcut, is the sorted filter of the machine list |
| `Views.PoolMisses` | pkg/decision/occ/poolcache.go:88-145 | A matching machine of the state is in the pool if and only if the Profile pins no instance types or the machine declares one; a machine that carries the pinned type as a label only is missed |
| `Pools.PoolLoses` | pkg/decision/occ/poolcache.go:88-145 | A concrete case: a well-formed Idle machine that carries the pinned type as a label matches, and the pool is empty |
| `PoolCosts.CostOrderExact` | pkg/decision/occ/poolcache.go:156-165 | The Speculative pool is in order of expected cost (where no risk costs nothing) if and only if the Profile is not pinned by its penalty bucket, or its source already lists the machines without risk first and by price |
| `PoolCosts.UnpinnedStays` | pkg/decision/occ/poolcache.go:88-125 | Under the pinned penalty bucket the Speculative pool of a Profile without pinned types is the fleet in id order, whatever prices and risks are |
| `PoolCosts.PinnedTakesSpot` | pkg/decision/occ/poolcache.go:156-165 | A concrete case: for a pinned Need the pool puts a spot machine before one that is never interrupted, although its expected cost has no bound |
| `Views.SourceUnique` | pkg/decision/occ/poolcache.go:88-125 | With distinct pinned types no machine enters a pool twice |
| `Fleet.PinnedRequirement` | pkg/decision/occ/poolcache.go:134-145 | The pinned types are the values of an In requirement on the instance-type key |
| `Fleet.PinnedExactly` | pkg/decision/occ/poolcache.go:134-145 | A Profile is pinned to given types exactly when its first requirement on the instance-type key is an In with those values, not empty |
| `PoolCosts.IdleByPrice` | pkg/decision/occ/poolcache.go:147-154 | An Idle pool offers the cheaper machine first, of equal price the lesser id |
| `PoolCosts.SpeculativeByCost` | pkg/decision/occ/poolcache.go:156-165 | Below the pinned penalty bucket a Speculative pool offers the lesser price plus risk times penalty first |
| `Fleet.SameRequirement` | pkg/decision/occ/candidates.go:405-412 | A Same key is found exactly when some requirement carries the Same operator |
| `Fleet.StrictFirst` | pkg/decision/occ/candidates.go:418-425 | The spread constraint obeyed is the first that forbids scheduling without it, and there is none exactly when no constraint does |
| `Fleet.DeclaredFirst` | pkg/decision/occ/match.go:69-84 | A declared type or zone settles its key whatever the labels say, an allocatable settles capacity whatever the raw resources say, and every other key is read from the labels alone |
| `Order.LexFirst` | pkg/decision/occ/samebucket.go:190-197 | A string precedes another exactly when it is a proper prefix of it or has the lesser character where they first differ |
| `Inventory.Store.TakeSnapshot` | pkg/inventory/inventory.go:164-358 | The snapshot lists exactly the stored records in id order, and every index built by the loops and in-place sorts agrees with the plain sorted filter of that list, the minima included |
| `Inventory.Store.Insert` | pkg/inventory/inventory.go:70-84 | Refuses malformed and duplicate records and then changes nothing; otherwise files the record and stamps it when Idle |
| `Inventory.Store.Apply` | pkg/inventory/inventory.go:89-115 | Refuses malformed, unknown and illegally moving records and then changes nothing; otherwise replaces the record; the Idle stamp is set on entry, kept while Idle, dropped on leaving |
| `Inventory.Store.Remove` | pkg/inventory/inventory.go:118-127 | Removes record and stamp, or reports that there was none |
| `Inventory.Snapshot.ListByStateInstanceType` | pkg/inventory/inventory.go:424-430 | The shared bucket is the price-sorted filter by state and type |
| `Inventory.Snapshot.SortedClusterStateBucket` | pkg/inventory/inventory.go:549-555 | The shared bucket is the keep-priority-sorted filter by cluster and state |
| `Inventory.Snapshot.ListByState` | pkg/inventory/inventory.go:508-515 | Returns the filter by state, in id order |
| `Inventory.Snapshot.ListByClusterState` | pkg/inventory/inventory.go:519-530 | Returns the filter by cluster and state, in id order; nothing for the empty cluster name |
| `Inventory.Snapshot.MinAssignedPriority` | pkg/inventory/inventory.go:563-569 | The least assigned priority of the state, but only if some machine of it declares an instance type; otherwise the greatest 32-bit value |
| `Inventory.Snapshot.MinAssignedPriorityByInstanceType` | pkg/inventory/inventory.go:575-585 | The least assigned priority among the machines of a state and type, or the greatest 32-bit value |
| `Inventory.SortIndices` | pkg/inventory/inventory.go:208-288 | Sorting positions in place and gathering gives the sorted records |
| `Inventory.Minima` | pkg/inventory/inventory.go:305-336 | The minima are the least over the state and over each type |
| `Inventory.AnySort` | pkg/inventory/inventory.go:208-288 | The comparators leave no ties between distinct machines, so any sorting algorithm, stable or not, yields the same list |
| `Inventory.AscendingUnique` | pkg/inventory/inventory.go:171-180 | The id-ordered listing of a set of records is unique: map order leaves no trace |
| `Views.SelectSort` | pkg/inventory/inventory.go:549-555 | Filtering a sorted bucket is sorting the filtered machines |
| `Views.BeforeOrder` | pkg/inventory/inventory.go:208-288 | The comparators of the sorts are strict weak orders |
| `Assign.Reconstruct` | pkg/decision/occ/cycle.go:143-185 | For every Need the result lists exactly its held machines, split by state without repetition, and the deficit they leave; the claimed set is exactly the final ledger |
| `Assign.Phase1` | pkg/decision/phase1_assign.go:152-226 | Phase 1 emits the results' acquisitions and short Needs in demand order |
| `Assign.ActionsExact` | pkg/decision/phase1_assign.go:181-201 | Exactly one action for each Idle or Speculative machine of the final ledger, for the Need that holds it, and none for any other machine |
| `Assign.ShortReported` | pkg/decision/phase1_assign.go:203-212 | Every Need the ledger leaves short is handed on with its exact deficit |
| `Assign.ReportedShort` | pkg/decision/phase1_assign.go:203-212 | Nothing is handed on that is not short |
| `Preempt.Phase2` | pkg/decision/phase2_inversions.go:66-268 | Phase 2 with its per-Profile memo, shared claimed set and shortcut equals scoring afresh for every Need in priority order |
| `PreemptSafety.Phase2Books` | pkg/decision/phase2_inversions.go:66-268 | No machine is preempted twice; every victim is Configured, of strictly lower priority, matches, covers MinUnit and lies in the Need's domain; it is the best-scoring such machine left in the Need's ranked pool and is taken while deficit remains; each served Need's reported residual is its deficit less what was freed, omitted exactly when zero; parked Needs and gangs without a domain pass through untouched |
| `PreemptSafety.ActionMeans` | pkg/decision/phase2_inversions.go:214-266 | Every preemption names a machine that may be preempted for one of the Needs, its cluster, that Need's priority, and the grace for the gap between the two priorities |
| `PreemptSafety.LeftMeans` | pkg/decision/phase2_inversions.go:95-106 | Phase 2 hands on each Need it passed over as it was and each it left short with its exact residual, domain cleared and what was freed noted, and nothing else |
| `PreemptSafety.RankedExactly` | pkg/decision/phase2_inversions.go:147-196 | The ranked pool against the fleet: it holds exactly the Configured machines that match and serve a strictly lower priority, except those a pinned Profile cannot see for want of a declared type, and all of them when an unpinned Profile meets a fleet that declares no type |
| `PreemptSafety.NobodyLeft` | pkg/decision/phase2_inversions.go:107-266 | After phase 2, if a Need that was not passed over is still short, every machine it could preempt (outside those two exceptions) was preempted, for itself or for a Need of no lower priority, and an action names it; passed over are exactly parked Needs and gangs without a domain |
| `PreemptSafety.PickIsBest` | pkg/decision/phase2_inversions.go:188-234 | Every pick scores no worse than any machine of the fleet (outside those two exceptions) that the Need could have preempted instead at that moment |
| `PreemptSafety.DrainGreedy` | pkg/decision/phase2_inversions.go:214-234 | The drain takes the best open victim again and again and ends short only when none is open |
| `Preempt.HasNoVictim` | pkg/decision/phase2_inversions.go:280-296 | The shortcut's verdict read from the snapshot minima is the one the plain filters give |
| `PreemptSafety.ShortcutSound` | pkg/decision/phase2_inversions.go:280-296 | Where minima are kept, the shortcut fires only if the full walk finds no strictly-lower-priority machine |
| `PreemptSafety.ShortcutExact` | pkg/decision/phase2_inversions.go:280-296 | For a given fleet the shortcut is harmless for every Profile if and only if some Configured machine declares an instance type, or all of them serve the greatest 32-bit priority |
| `PreemptSafety.ShortcutLoses` | pkg/decision/phase2_inversions.go:280-296 | A concrete fleet (one well-formed Configured machine without an instance type) on which the shortcut loses the only victim |
| `Preempt.ByPriorityStable` | pkg/decision/phase2_inversions.go:89-93 | The Needs are served by descending priority, equals in the order given |
| `Preempt.DrainVictims` | pkg/decision/phase2_inversions.go:214-234 | The drain loop yields the specified picks and residual |
| `Scoring.GraceExact` | pkg/decision/cost.go:102-114 | A preemption gets the grace its priority gap calls for if and only if the gap fits 32 bits; a wider gap wraps and gets the longest grace instead of the shortest |
| `Scoring.GraceWraps` | pkg/decision/cost.go:102-114 | A concrete case: priorities 2147483647 and -1 get 600 seconds where their gap calls for 10 |
| `Scoring.BetterVictim` | pkg/decision/cost.go:71-92 | Under non-negative weights a victim of no higher priority and penalties never scores worse, and strictly better for a strictly lower priority below the preemptor's when the gap has weight |
| `Scoring.WeightsApart` | pkg/decision/cost.go:71-92 | Alone, each weight gives one thing: the priority gap floored at zero, or the reciprocal of the drain seconds floored at one, of the interruption or of the reclamation penalty floored at a cent |
| `Scoring.WeightsAdd` | pkg/decision/cost.go:71-92 | The score is linear in the weights |
| `Scoring.GraceShrinks` | pkg/decision/cost.go:102-114 | The wider the gap the shorter the grace, with its four values and exact boundaries |
| `Scoring.CostSlope` | pkg/machine/machine.go:297-302 | Under no penalty a machine costs its price; each further dollar of penalty costs its interruption probability |
| `Scoring.PenaltyLadder` | pkg/needs/needs.go:133-152 | From the half-dollar bucket on each bucket is worth twice the one before, up to the pinned one, which has no bound |
| `Scoring.CostOrder` | pkg/machine/machine.go:297-302 | A machine no dearer and no likelier to be interrupted never compares as costing more, under any penalty; under a bounded one the two costs compare, and a negative penalty counts as none |
| `Inventory.Rebinding` | pkg/machine/machine.go:235-259 | Along any path of legal transitions a bound machine is bound again only after Draining, Idle and Configuring, and without ever failing |
| `Inventory.TwoSteps` | pkg/machine/machine.go:235-259 | Two legal transitions lead from one resting state to another only by creating, binding, giving up a binding, draining or deleting; only a machine on its way may fail, and no way leads from failure |
| `Inventory.RecordsSound` | pkg/machine/machine.go:315-358 | A well-formed bound machine is in its cluster's bucket and has a host; one not yet created names neither host nor cluster; risks and prices are in range |
| `Fleet.OperatorsOppose` | pkg/decision/occ/match.go:21-67 | In and NotIn are exact opposites, so are Exists and DoesNotExist; Same means Exists without values and In with values |
| `Reclaim.Phase3` | pkg/decision/phase3_reclaim.go:77-134 | Phase 3 emits the drains cluster by cluster in name order, then the expired Idle machines, as specified |
| `Reclaim.ReleasedExactly` | pkg/decision/phase3_reclaim.go:77-134 | Drained are exactly the unclaimed Configured machines of ready clusters, deleted exactly the unclaimed Idle ones whose hold has run out |
| `Reclaim.ReleasedInTurn` | pkg/decision/phase3_reclaim.go:77-134 | All drains come before any delete, cluster by cluster in name order, and within a cluster the machine worth more to keep first |
| `Reclaim.OwnedHardwareKept` | pkg/decision/release.go:71-81 | Hardware without a hold is never deleted, and a policy without holds deletes nothing |
| `Reclaim.ClustersWithConfigured` | pkg/decision/phase3_reclaim.go:141-150 | The method lists exactly the clusters that hold a Configured machine, sorted by name |
| `Reclaim.ClusterListed` | pkg/decision/phase3_reclaim.go:141-150 | A cluster is listed exactly when it holds a Configured machine, once, in strict name order |
| `Normalize.NormalizeDemand` | pkg/decision/normalize.go:61-140 | The memoised pass, including its early return for demand without gangs, equals the unmemoised fold |
| `Normalize.Normalizer.FoldableFor` | pkg/decision/normalize.go:260-277 | The memoised verdict is whether some machine of the cluster or of the shard's acquirable sources hosts the whole gang |
| `Normalize.StrippedPlain` | pkg/decision/normalize.go:236-253 | Stripping leaves no Same requirement and accepts every machine the gang's Profile accepted; what else it accepts is stated exactly by NormalizeMeaning.StrippedMeans |
| `NormalizeMeaning.StrippedMeans` | pkg/decision/normalize.go:236-253 | A machine matches the stripped Profile exactly when it meets every requirement of the original that is not Same; spread, priority, interruption and reclamation are unchanged |
| `NormalizeMeaning.FoldableExactly` | pkg/decision/normalize.go:260-313 | A gang is folded exactly when one machine it could use matches it and hosts the whole of it: a Configured or Configuring one of its cluster, or an Idle or Speculative one its pinned types let it see |
| `NormalizeMeaning.NormalizedIs` | pkg/decision/normalize.go:61-140 | The result is the Needs left as they were, in their order, followed by the folded ones |
| `NormalizeMeaning.NoGangToFold` | pkg/decision/normalize.go:61-140 | No gang of the result could have been folded, and each was in the demand |
| `NormalizeMeaning.FoldedStands` | pkg/decision/normalize.go:91-138 | Every folded Need stands for gangs of the demand: same cluster, their aggregate as its unit and their sum as its aggregate, their earliest known arrival, and a machine fits it only if it meets every non-Same requirement of each of them |
| `NormalizeMeaning.GangStoodFor` | pkg/decision/normalize.go:91-138 | Every gang that one machine could host is among those some folded Need stands for |
| `NormalizeLaws.DemandConserved` | pkg/decision/normalize.go:61-140 | Every cluster's total resource vector is the same before and after |
| `NormalizeLaws.FoldedUnit` | pkg/decision/normalize.go:126-138 | Every folded Need's MinUnit is one member's aggregate, hosted by some machine of the snapshot its Profile accepts |
| `NormalizeLaws.NormalizedOnce` | pkg/decision/normalize.go:61-140 | Normalising twice on one snapshot equals normalising once |
| `NormalizeLaws.GroupsCount` | pkg/decision/normalize.go:91-114 | Every fold group counts exactly its members and keeps their earliest known arrival |
| `Resources.ScaleResources` | pkg/needs/resources.go:118-132 | Repeated addition per dimension; nothing at all for a factor of zero or less |
| `Resources.ScaleNext` | pkg/needs/resources.go:118-132 | Scaling by one more adds the vector once more |
| `Resources.SubSub` | pkg/needs/resources.go:78-86 | Subtracting twice with saturation is subtracting the sum once |
| `Resources.ResidualZero` | pkg/needs/resources.go:91-113 | A saturating residual is zero exactly when the supply covers the demand |
| `Resources.AddAssoc` | pkg/needs/resources.go:27-32 | Vector addition is associative, absent names included |
| `Demand.Aggregate` | pkg/needs/needs.go:404-427 | The roll-up holds every (cluster, Profile, group) class of the input exactly once |
| `Demand.RowMeans` | pkg/needs/needs.go:404-427 | A row asks for the sum of its members' aggregates, and for the least unit that covers every member's MinUnit |
| `Demand.RollUpMeans` | pkg/needs/needs.go:404-427 | The roll-up has one row for each combination of cluster, Profile and group that occurs, and each row sums up exactly the Needs of its combination, as often as they occur: their joint aggregate, their least covering unit, their earliest known arrival |
| `Demand.Table.Replace` | pkg/needs/needs.go:449-460 | Replaces one cluster's rows, an empty list clearing them, and marks the cached snapshot outdated |
| `Demand.Table.Snapshot` | pkg/needs/needs.go:473-521 | The snapshot, cached or not, is the stable sort of all rows by priority, age and cluster |
| `Demand.SnapshotUnique` | pkg/needs/needs.go:473-521 | When every row is filed under its own cluster, the snapshot does not depend on the order in which the map yields the clusters |
| `Demand.SortStable` | pkg/needs/needs.go:497-512 | The sort orders by rank and keeps the order of the rows of each rank |
| `Demand.SnapshotOrder` | pkg/needs/needs.go:497-512 | Higher priority first, at equal priority the earlier arrival, then the lesser cluster name |
| `Actuation.SingleDriver` | pkg/shard/shard.go:887-946 | Under any interleaving of emission, workers and reconcile, the pending set is exactly the machines queued, executing or just being queued, each with one action under way, and no two workers drive one machine |
| `Actuation.RecordIsOwned` | pkg/shard/shard.go:545-569 | While a worker drives a machine, any other step leaves its record as it is, except the removal of a machine that a full List omitted |
| `Actuation.NoLostUpdate` | pkg/shard/reconcile.go:116-203 | Reconciliation merges with the current record although it read it earlier: its read and write might as well be one step |
| `Actuation.OnlyLegal` | pkg/shard/shard.go:887-946 | In every run, a record that changes state moves along a legal transition, and whatever is written is well-formed |
| `Actuation.OnlyOmitted` | pkg/shard/reconcile.go:39-62 | Whatever is pending and whatever the workers write meanwhile, a List removes nothing it lists; once it is through, due for removal is exactly what is stored and not listed, and that only for a full List |
| `Actuation.FreshAction` | pkg/shard/shard.go:887-946 | Between the live check that passes an action on an undriven machine and its marking as pending, no step of any worker makes the action stale |
| `Actuation.StaleDropped` | pkg/shard/shard.go:887-946 | An action whose machine is known to be in another state is dropped |
| `Actuation.MoveKeeps` | pkg/shard/shard.go:887-946 | Every step keeps the pending ledger invariant |
| `Reconcile.ApplyReconciledMachine` | pkg/shard/reconcile.go:116-203 | A machine with a pending action is left alone; otherwise the record is taken in, assignment state surviving only on bound machines; an Idle machine taken in starts its hold now, any other loses its stamp, and a record that changes nothing leaves the clock running |
| `Reconcile.ReconcileFull` | pkg/shard/reconcile.go:39-62 | A full List takes every record in and then keeps exactly the machines it lists, with the stamps that gave them |
| `Reconcile.ReconcileIncremental` | pkg/shard/reconcile.go:69-81 | A delta List takes records in and removes nothing |
| `Reconcile.IngestKeeps` | pkg/shard/reconcile.go:116-203 | Taking records in removes no machine and alters only machines listed with a well-formed record and no pending action |
| `Reconcile.TakenInExactly` | pkg/shard/reconcile.go:116-203 | A record is taken in exactly when it is well-formed and of an unknown machine, or of one in another state that may legally move to the recorded one; no other machine is touched |
| `Reconcile.AssignmentSurvives` | pkg/shard/reconcile.go:160-185 | What a machine serves is kept while the record has it Configuring, Configured or Draining; everything else is as recorded |
| `Parking.Ledger.RecordUnsatSameAges` | pkg/shard/shard.go:1150-1172 | One cycle's update of the ages, including the removal of classes not seen stalled, equals the specified one |
| `Parking.Ledger.StampParkedNeeds` | pkg/shard/shard.go:1179-1192 | Stamps exactly the gangs of age at least 8 that is no multiple of 32, and leaves the rest of each Need alone |
| `Parking.RecordedAge` | pkg/shard/shard.go:1150-1172 | After one cycle a class that stalled is one older and any other starts over |
| `Parking.AgeIsRun` | pkg/shard/shard.go:1150-1172 | With one Need a class and cycle, a class's age is the number of its latest consecutive stalled cycles |
| `Parking.NotParkedEarly` | pkg/shard/shard.go:1179-1192 | A class is parked only after at least 8 consecutive stalled cycles |
| `Parking.ReprobesInTime` | pkg/shard/shard.go:1179-1192 | No class is parked for 32 cycles in a row |
| `Parking.ParkedExactly` | pkg/shard/shard.go:1150-1192 | A gang is parked exactly when its class stalled in eight or more consecutive cycles and their number is no multiple of 32, where a cycle stalls it that acquired nothing for it and found no domain that could hold it |
| `Coordinator.CompactAndResume` | pkg/coordinator/fsm.go:102-201 | For any log whose registrations carry their time and any split point: snapshot at the split, restore into a new machine, apply the rest, and the state is that of replaying the whole log, whatever the clocks say |
| `Coordinator.FSM.ApplyCommand` | pkg/coordinator/fsm.go:102-132 | A command has its specified reply and effect; a refused one changes nothing |
| `Coordinator.FSM.TakeSnapshot` | pkg/coordinator/fsm.go:151-174 | The snapshot depicts the whole replicated state |
| `Coordinator.FSM.Restore` | pkg/coordinator/fsm.go:178-201 | Restoring a depiction of a consistent state, its entries in any order, yields that state |
| `Coordinator.ReplayConsistent` | pkg/coordinator/fsm.go:102-132 | After any timed log every binding and assignment targets a registered shard |
| `Coordinator.ClockMatters` | pkg/coordinator/state.go:95-109 | The local clock matters to a command exactly when it registers a new shard without a registration time |
| `Coordinator.ReplayTimeless` | pkg/coordinator/fsm.go:102-132 | Replaying a timed log gives the same state at any times |
| `Coordinator.ReplaySplit` | pkg/coordinator/fsm.go:102-132 | Replaying a log in two halves is replaying it in one |
| `Coordinator.BoundUntilRemoved` | pkg/coordinator/state.go:170-185 | A bound cluster keeps its shard until that shard is removed |
| `Coordinator.RemovalFrees` | pkg/coordinator/state.go:112-131 | Removing a shard frees exactly the clusters and domains that pointed at it and keeps the state consistent |
| `Coordinator.State.Bind` | pkg/coordinator/state.go:170-185 | Binding refuses unknown shards and clusters bound elsewhere, else points the cluster at the shard |
| `Coordinator.State.Remove` | pkg/coordinator/state.go:112-131 | Removal clears the shard and, entry by entry, everything that points at it |
| `Coordinator.AddMeans` | pkg/coordinator/state.go:95-109 | Registers exactly new, non-empty ids, stamped with the clock only when they bring no time; nothing else changes |
| `Coordinator.BindMeans` | pkg/coordinator/state.go:170-185 | Afterwards the cluster points at the shard exactly if that is registered and the cluster was free or its own; otherwise nothing changes, and the reply says which |
| `Coordinator.AssignMeans` | pkg/coordinator/state.go:199-211 | The same for domains |
| `Coordinator.UnassignMeans` | pkg/coordinator/state.go:214-218 | Frees the domain and nothing else, and always succeeds |
| `Coordinator.RegisteredOnce` | pkg/coordinator/fsm.go:102-132 | A registered shard's entry stays as it is through any log that does not remove it |
| `Coordinator.AssignedUntil` | pkg/coordinator/fsm.go:102-132 | An assigned domain keeps its shard through any log that removes neither the shard nor the assignment |

## Left out

- NoJustifiedEnvy: speaks of the machines of the Need's pools; a pinned Profile's pool does not list machines that carry the type only as a label (see PoolMisses), and a Need whose last run spent its budget is excluded, as the code intends.
- GangSafety: claims co-location for a recorded non-empty domain only; without one the Idle and the Speculative search may settle on different domains.
- SeedConfiguredSupply: requires the pinned instance types of each Profile to be distinct; the program sorts but does not deduplicate them, and a repeated type would list its machines twice.
- ConsumeAcquirable: has the same requirement on pinned instance types.
- Phase2Books: has the same requirement on pinned instance types.
- NobodyLeft: has the same requirement on pinned instance types.
- NoOscillation: is about demand without Same constraints, and GangsRest about demand of served gangs only. Quiescence for mixed demand is not guaranteed by the code: a plain Need may claim a machine that a gang of lower priority counts on.
- AgeIsRun: assumes one Need per class and cycle; with several, the program counts each of them.
- CompactAndResume: assumes that registrations in the log carry their time; ClockMatters says exactly when that is needed.
- FoldedUnit: says a member fits some machine, not that the folded demand can be packed, which the code does not guarantee.
- SnapshotUnique: assumes rows filed under their own cluster; the table itself does not check that.
- Build: under the pinned penalty bucket the comparison of a Speculative pool is no order as soon as machines with and without risk mix, and what a sort then yields is up to its algorithm. The model's insertion sort is what the library's stable sort does up to 20 machines; for any Profile without pinned types there is nothing to move at any length (UnpinnedStays); longer mixed pools of a pinned-type Profile are not modelled.
- Get: has the same limit.
- FindBasic is part of the step system (`Cycle.AfterScan`), one shared-state read a move, since other workers may commit between its reads; BasicTakes says what the moves add up to. FindSame and FindSpread appear there as one move that may put forward any list of machines the Need may be offered; SameOffers and SpreadOffers show that the searches stay within it.
- The capacity of the work channel: the queue is unbounded and hands out entries in any order. The bound its comment gives is not claimed, because a Need with several claims may be displaced by several proposals.
- Quantity strings, canonical resource slices with repeated names, the memo of parsed quantities, 64-bit saturation of milli-values, and floating-point rounding.
- The rank by which normalisation orders its groups is built from the Profile's canonical text, which the model does not spell out; the rank is a parameter, and the results hold for any.
- Library sorts are modelled as insertion sorts; AnySort, SortStable and ByPriorityStable say why nothing depends on the algorithm where the comparison is an order.
- Observation-only outputs: domain candidates for inspection, matching-supply counts, verdicts, probes, reasons, metrics and logs.
- Phase 2 and phase 3 may name the same excess machine in one cycle; the pending ledger resolves it, and disjointness is not claimed.
- The shard loop around the phases: roll-up guard, reclaim cap, action limits, dry run, pause, shortfall buffer ages, node-state notifications, shard metadata decoding.
- Provider RPCs and bootstrap data: a worker's effect on the inventory is an arbitrary record of its own machine.
- Coordinator heartbeats (outside the log), JSON encoding (taken as lossless), Raft itself, fencing.
- gRPC sessions, operators, Kubernetes clients, identity, command-line tools, simulator and website.
