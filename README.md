# Cell arena: a Dafny model of the game and its evolutionary driver

The system is a small 2-D arena game. A player cell moves around a window
that wraps at its edges. It eats particles, which raise its level. Killers
hunt it, and a collision costs the player as many levels as the killer has.
A steering network may move the player. It is trained online from a state
vector of relative positions and a target direction. A driver runs batches
of players through rounds of the game, keeps those that survived, breeds
children from them, and ranks the last generation. A separate elitist
evolution class keeps the best-scoring networks and refills the population
with mutated clones.

The Dafny project models the integer and sequence logic of four files:

| file | modelled in | what it holds |
|---|---|---|
| `model.py` | `model.dfy` (module `Model`) | `Particle`, `Killer` and `Player` as classes whose methods update their fields, plus the pure level arithmetic they follow |
| `view.py` | `view.dfy` (module `View`) | `coll` and `fight`, `App` with its validation, the per-tick sweep over particles and killers, the state vector, the target and the round loop |
| `dashboard.py` | `dashboard.dfy` (module `Dashboard`), `ranking.dfy` (module `Ranking`) | `get_npcs`, `run_simulation_round`, `run_simulation_batch`, `create_children`, `run_evolution`, and the stable descending sort of the final ranking |
| `evolution.py` | `evolution.dfy` (module `Evolution`) | the `Evolution` class: construction, `evaluate`, `evolve` |

`policy.dfy` (module `Policy`) declares the network as an abstract type with
equality. The model never looks inside a network.

Randomness, the clock and the network are inputs:

- Every `randint` a move, spawn or respawn would draw becomes a parameter.
  A `requires` keeps it in the range the source draws from.
- Clock readings become time parameters: one per `level_up` / `level_down`
  call in the `Player` methods, one per tick in the tick engine.
- A network's move is an integer step.
- A network's copy-and-mutate is a function parameter.

Each state-changing operation is proved against a pure function of the old
state. The properties the source promises are then proved about those
functions as lemmas.

### How the model reads the source

The source contradicts itself in places. The model takes these readings:

- `Player.__init__` needs a start time (model.py:111), but `get_player` and
  `create_children` call it with three arguments (dashboard.py:53, 136).
  The model gives the constructor the start time as a parameter.
  `RunEvolution` and `CreateChildren` take it from a `born` function.
- `Killer.__init__` needs a direction (model.py:47), but `get_npcs` omits it
  (dashboard.py:64). The model draws each killer's direction with its start
  position (`Starts.killers`).
- `run_simulation_batch` and the final ranking read `player.level_data`
  (dashboard.py:122, 162), which `Player` never defines. The model reads it
  as the levels of the `time_data` trace (`Progress.trace`). So the
  maximum level is the maximum over the recorded samples, and 0 for an
  empty trace.
- `run_evolution` ends the process with `exit()` when a batch has no
  survivors (dashboard.py:155). The model returns the outcome
  `NoSurvivors(batch)`.
- Exceptions become results:
  - the `ValueError`s of `_validate` and `run_simulation_batch` become
    `Failure` / `Failed`;
  - `max` of an empty trace in the ranking becomes `Failed`;
  - `np.random.choice` of an empty list in `evolve` becomes `None` / `false`.
- Collision distances are compared squared (`dx² + dy² < 100` and `< 81`),
  so no square root is taken. `coll` returns the squared distance
  (see `View.Coll` under "Left out").
- `Killer.__init__` draws its x from `randint(width - width * 0.2, width)`
  (model.py:50-51), which passes a float to `randint`. Python 3.12 refuses a
  float there (`TypeError`), and earlier versions raise `ValueError` unless
  `0.8 * width` is a whole number. The model takes the integral reading: it
  requires `4 * width <= 5 * x0 <= 5 * width`, with all values integers.
- `env.run(n_steps)` in `evaluate` is a score function `run(net, nSteps)`.

## Model

| member | source | states |
|---|---|---|
| Model.Wrap | model.py:23-27 | Python's `% dim` of a one-step move: the result lies in `[0, dim)`, equals `v + d` when that is in range, and is shifted by exactly one window otherwise |
| Model.Particle.constructor | model.py:13-21 | a particle starts with its name and window, at the drawn start position, which lies in `[20, w-20] x [0, h]` |
| Model.Particle.MoveRight | model.py:23-24 | with a delta in `[-4, 4]`, x becomes the wrapped sum, which lies in `[0, width)`; y is unchanged |
| Model.Particle.MoveUp | model.py:26-27 | with a delta in `[-4, 4]`, y becomes the wrapped sum, which lies in `[0, height)`; x is unchanged |
| Model.Killer.constructor | model.py:47-60 | a killer starts with its name, direction and window, at the drawn position, with level 1, size 3, fill 1 and colour (255, 0, 0) |
| Model.Killer.MoveRight | model.py:62-68 | x moves by a delta from the direction's range (`[-9,-5]` for -1, `[5,8]` for 0, else `[-4,3]`), wrapped into `[0, width)`; nothing else changes |
| Model.Killer.MoveUp | model.py:70-76 | y moves by a delta from the direction's range (`[-9,-5]` for 1, `[5,10]` for 10, else `[-4,3]`), wrapped into `[0, height)`; nothing else changes |
| Model.KillerLevelUp | model.py:81-94 | once G is 255 nothing changes; otherwise the level rises by exactly 3 and B is unchanged |
| Model.Killer.LevelUp | model.py:81-94 | the killer's look becomes `KillerLevelUp` of the old look; its position is unchanged |
| Model.KillerStageStep | model.py:81-94 | one `level_up` takes stage m to stage m+1, and stage 17 is fixed |
| Model.KillerLevelCap | model.py:53-59 | after n calls from the start, the level is `1 + 3 * min(n, 17)`: always 1 mod 3 and at most 52. G is 255 exactly when n >= 17, and R stays 0 or 255, so the `R < 15` branch is never taken |
| Model.PlayerLevelUp | model.py:139-155 | at B = 255 nothing changes; otherwise the level rises by exactly 1 and one sample with the new level is appended. Size, fill and colour change only when the new level is a multiple of 10 |
| Model.PlayerLevelDown | model.py:157-174 | at level 0 nothing changes and no sample is appended; otherwise the level becomes `max(level - num, 0)` and one sample with it is appended. For num >= 0 the level never goes negative or up |
| Model.Replay | model.py:139-174 | the level state after a sequence of `level_up` / `level_down` calls in order; the old trace is a prefix of the new one |
| Model.ReplayKeepsLevel | model.py:139-174 | over any sequence of level changes with non-negative penalties, the level stays non-negative. The trace only grows, by at most one sample per event, it grows whenever anything changes, and its last sample is the current level |
| Model.Player.constructor | model.py:111-125 | a player starts at x = 10, y = height // 2, speed 8, level 20, size 3, fill 1, colour (255, 255, 0) and an empty trace |
| Model.Player.MoveRight | model.py:127-128 | x becomes `(x + speed) mod width`; y and the level state are unchanged |
| Model.Player.MoveLeft | model.py:130-131 | x becomes `(x - speed) mod width`; y and the level state are unchanged |
| Model.Player.MoveUp | model.py:133-134 | y becomes `(y - speed) mod height`; x and the level state are unchanged |
| Model.Player.MoveDown | model.py:136-137 | y becomes `(y + speed) mod height`; x and the level state are unchanged |
| Model.Player.LevelUp | model.py:139-155 | the level state becomes `PlayerLevelUp` of the old one, stamped with the elapsed time; the position is unchanged |
| Model.Player.LevelDown | model.py:157-174 | the level state becomes `PlayerLevelDown` of the old one, stamped with the elapsed time; the position is unchanged |
| View.SqDist | view.py:13 | the squared distance is non-negative, and zero exactly when the two points coincide |
| View.SamePlaceCollides | view.py:14-25 | an entity on the player's own square is both captured (`< 10`) and hit (`< 9`); every hit lies within the capture radius; at distance 10 or more there is neither |
| View.Validate | view.py:51-53 | construction fails with `ValueError` exactly when render is false and the player does not use its network |
| View.Coll | view.py:11-19 | when closer than 10, the particle moves to the respawn draw, the player levels up once and the result is 0. Otherwise the result is the squared distance (at least 100) and neither object changes. The player never moves |
| View.Fight | view.py:22-29 | reports a collision exactly when closer than 9; only then does the player level down by the killer's level; the player never moves |
| View.ParticleVisited | view.py:120-135 | visiting particle i changes only the level state and that particle |
| View.KillerVisited | view.py:137-152 | visiting killer j changes only the level state and that killer |
| View.ParticleSweep | view.py:120-135 | the particle loop leaves the player's position and the killers alone, and keeps the particle count |
| View.KillerSweep | view.py:137-152 | the killer loop leaves the player's position and the particles alone, and keeps the killer count |
| View.ParticleSweepProgress | view.py:120-128 | after n particles, the level state is that of n `coll`s in iteration order |
| View.ParticleSweepAhead | view.py:120-135 | particles the loop has not reached are untouched |
| View.ParticleSweepMoved | view.py:121-135 | every visited particle got its collision check, then exactly one `moveRight` and one `moveUp` |
| View.KillerSweepProgress | view.py:137-145 | after n killers, the level state is that of n `fight`s in iteration order |
| View.KillerSweepAhead | view.py:137-152 | killers the loop has not reached are untouched |
| View.KillerSweepMoved | view.py:151-152 | every visited killer got exactly one `moveRight` and one `moveUp`, whether or not it hit |
| View.NpcWorld | view.py:109-152 | `_update_npc_positions` on values, the particle loop and then the killer loop: the player does not move, and the particle and killer counts are kept |
| View.TickWorld | view.py:165-176 | `on_render` on values: the NPC phase gives the level state, particles and killers; the player moves by its step, wrapped, only when it uses its network |
| View.TickKeepsShape | view.py:165-176 | a tick keeps the number of particles and the killers' directions |
| View.NpcWorldClosedForm | view.py:109-152 | a tick's NPC phase in closed form: the player stands still, each particle is checked then moved, each killer moved, and the level state goes through all particles then all killers |
| View.Scores | view.py:115-145 | one score per entity, particles then killers |
| View.ScoresMeaning | view.py:127-144 | particle k scores 1.0 if captured and 0.2 otherwise; killer k scores -1.0 if it hit and -0.2 otherwise |
| View.ParticleScoresAt | view.py:127-128 | the k-th particle score is the one its capture test gives |
| View.KillerScoresAt | view.py:144-145 | the k-th killer score is the one its hit test gives |
| View.RelPositions | view.py:116-142 | one relative position per entity, particles then killers |
| View.RelPositionsMeaning | view.py:123-142 | particle k's entry is its position after the collision check minus the player's, over the diagonal; killer k's entry is its position before it moves |
| View.ParticleRelsAt | view.py:123-125 | the k-th particle offset is taken after a possible respawn |
| View.KillerRelsAt | view.py:140-142 | the k-th killer offset is taken before the killer moves |
| View.Flatten | view.py:130-148 | two entries per pair |
| View.FlattenAt | view.py:130-148 | pair k sits at slots 2k and 2k+1 |
| View.Slots | view.py:130-148 | writing pairs into slots keeps the vector's length |
| View.SlotsNext | view.py:130-132 | one more loop turn writes exactly slots `2*count` and `2*count+1` |
| View.SlotsWritten | view.py:130-148 | every written pair lands at slots `2*(base+k)` and `2*(base+k)+1` |
| View.SlotsKept | view.py:130-148 | slots outside the written block keep their value |
| View.SlotsMakeStateVector | view.py:111-148 | the two loops' writes on the zero vector with the player header give exactly `StateVector` |
| View.HeaderSlotsKept | view.py:112-113 | the loops never overwrite slots 0 and 1 |
| View.PairSlotWritten | view.py:117-149 | since `count` runs on from the particle loop into the killer loop, entity e (particles first) lands at slots `2(e+1)`, `2(e+1)+1` |
| View.PairSlot | view.py:130-148 | two vectors with the same pair at entity e agree on its slot |
| View.SweptVector | view.py:111-152 | the vector the loops fill is the state vector of all relative positions |
| View.StateVector | view.py:111-113 | the state vector has `2 * n_cells` entries |
| View.StateVectorLayout | view.py:111-148 | slots 0/1 hold the player's position over width/height; entity k fills slots `2(k+1)` and `2(k+1)+1` |
| View.SumAbs | view.py:155 | the sum of absolute scores is non-negative |
| View.Normaliser | view.py:155 | `total` is strictly positive and exceeds the sum of absolute scores, so the target division is defined |
| View.WeightedSumBound | view.py:156-157 | with offsets in `[-1, 1]`, the weighted sum lies within plus or minus the sum of absolute scores |
| View.Target | view.py:155-157 | the score-weighted sum of offsets over `total`, before the final L2 normalisation; with no entities it is `(0, 0)` |
| View.TargetInUnitBox | view.py:155-157 | with offsets in `[-1, 1]`, both target components lie strictly inside `(-1, 1)` |
| View.RelPositionsInUnit | view.py:119-142 | with every position and respawn point inside the window and `diag` its diagonal, each offset over `diag` lies in `[-1, 1]` |
| View.TickTargetInUnitBox | view.py:119-157 | so the target of a tick in a well-placed arena lies strictly inside `(-1, 1)` on both axes |
| View.TicksKeepShape | view.py:189-209 | when a round's draws fit the arena it starts in, every tick keeps its shape, so each draw fits the arena it is used on and every tick is `on_render`'s `TickWorld` |
| View.Episode | view.py:189-209 | a round plays at most one tick per draw, and at least one |
| View.EpisodeAdvance | view.py:205-209 | one loop turn: it counts the round, ticks, and stops when the count reaches the limit or the level is 0; otherwise the rest of the round follows |
| View.EpisodeTicks | view.py:189-209 | the round's final state is its tick sequence applied in order, and it plays at most `max(round_limit - count, 1)` ticks |
| View.EpisodeEnds | view.py:175-207 | given enough draws, the round ends only at the round limit or when the level reaches 0 |
| View.EpisodeAlive | view.py:175-189 | every tick before the last leaves the player's level non-zero |
| View.App.SnapshotLayout | view.py:42 | the arena's shape read off the values agrees with the one read off the objects |
| View.App.SnapshotShows | view.py:36-38 | the objects show their own snapshot |
| View.App.ShowsSnapshot | view.py:36-38 | objects that show a world have that world as their snapshot |
| View.App.constructor | view.py:34-50 | stores its arguments, `n_cells = 1 + #particles + #killers`, running, and round count 0 |
| View.App.Open | view.py:34-53 | returns no game exactly when `_validate` raises; otherwise the game as the constructor states |
| View.App.VisitParticle | view.py:120-135 | one particle turn: the arena becomes `ParticleVisited`. The score is the capture score, the offset is taken after the check, and exactly the particle's two slots are written |
| View.App.VisitKiller | view.py:137-152 | one killer turn: the arena becomes `KillerVisited`. The score is the hit score, the offset is taken before the move, and exactly the killer's two slots are written |
| View.App.SweepParticles | view.py:117-135 | the particle loop: the arena becomes `ParticleSweep`, and scores, offsets and slots are those of all particles in order |
| View.App.SweepKillers | view.py:137-152 | the killer loop: the arena becomes `KillerSweep`, and scores, offsets and slots continue after the particles |
| View.App.NewCoord | view.py:111-113 | a fresh `2 * n_cells` zero vector with the player's normalised position in slots 0 and 1 |
| View.App.Sweep | view.py:117-152 | both loops: the arena becomes `NpcWorld`, the scores are `Scores`, the offsets are `RelPositions`, and the vector is `StateVector` |
| View.App.UpdateNpcPositions | view.py:109-163 | the arena after the NPC phase is `NpcWorld` of the old one; the returned vector is the state vector of the old arena's offsets, and the target is the score-weighted mean offset |
| View.App.RunNetwork | view.py:105-107 | only the player's position changes, by the step wrapped into the window |
| View.App.MoveNpcs | view.py:170 | the NPC phase of a frame changes the arena exactly as `NpcWorld` |
| View.App.OnRender | view.py:165-179 | one frame changes the arena as `TickWorld`; the game stops exactly when the level is 0 afterwards |
| View.App.Round | view.py:205-209 | one loop turn counts the round, plays a tick, and keeps running only below the round limit with a non-zero level |
| View.App.RunStep | view.py:189-209 | one loop turn keeps the loop invariant: the arena is the episode prefix after one more tick |
| View.App.Run | view.py:184-212 | the game ends stopped, counts one round per tick played, and ends in exactly the state and tick count of `Episode`; a stopped game plays nothing |
| Dashboard.Digits | dashboard.py:61-64 | `f'{i}'` is a non-empty string of decimal digits that spells `i` back, with no leading zero |
| Dashboard.NamesDistinct | dashboard.py:61-64 | different numbers give different `particle_i` / `killer_i` names |
| Dashboard.StartWorld | dashboard.py:100 | the round's arena has one particle and one killer per start draw |
| Dashboard.GetNpcs | dashboard.py:57-66 | exactly `number_of_particles` fresh, distinct particles and `number_of_killers` fresh, distinct killers, named `particle_i` / `killer_i`, at their start draws |
| Dashboard.NewParticles | dashboard.py:60-62 | the particle loop of `get_npcs` |
| Dashboard.NewKillers | dashboard.py:63-65 | the killer loop of `get_npcs`, each killer at the initial level and colour |
| Dashboard.RunSimulationRound | dashboard.py:99-112 | fails exactly when `_validate` does, and then leaves the player alone. Otherwise the player ends where the round's episode from fresh NPCs ends |
| Dashboard.MaxLevel | dashboard.py:122 | 0 for an empty trace, otherwise the largest level in it: an upper bound that is attained |
| Dashboard.RunSimulationBatch | dashboard.py:115-127 | raises exactly when render is on or some player does not use its network; otherwise returns exactly the `Survivors` of the players after their rounds |
| Dashboard.BatchStep | dashboard.py:120-126 | one loop turn plays player i's round and extends the survivors by it exactly when it survives |
| Dashboard.Survivors | dashboard.py:118-127 | the surviving players, in order (see `SurvivorsExactly`, `SurvivorsInOrder`): never more of them than players |
| Dashboard.SurvivorsFromPlayers | dashboard.py:118-127 | every survivor is one of the players |
| Dashboard.SurvivorsExactly | dashboard.py:125 | a player is a survivor exactly when its max level reaches the cutoff and its final level is at least 1 |
| Dashboard.SurvivorsInOrder | dashboard.py:120-126 | survivors keep the players' original order |
| Dashboard.SurvivorsFacts | dashboard.py:118-127 | the survivors of distinct players are distinct survivors, no more numerous than the players |
| Dashboard.ChildNets | dashboard.py:130-139 | the children's networks number `len(survivors) * n_children` |
| Dashboard.ChildNetsStep | dashboard.py:132-137 | one more parent appends its block of `n_children` mutated copies |
| Dashboard.ChildOfParent | dashboard.py:132-137 | child k's network is the mutated copy of parent `k // n_children`'s network, so children are grouped by parent in survivor order |
| Dashboard.CreateChildren | dashboard.py:130-139 | `len(survivors) * n_children` fresh, distinct players. Child k holds the mutated copy of parent `k // n_children`'s network and starts as a new player with the configured window and network switch |
| Dashboard.AddBrood | dashboard.py:132-137 | one outer loop turn appends the next parent's block and keeps the children grown so far |
| Dashboard.Brood | dashboard.py:133-137 | the inner loop: `n_children` fresh, distinct new players holding the mutated copies |
| Dashboard.GrownAppend | dashboard.py:132-137 | appending a parent's block to the children of the parents before it gives the children of one more parent |
| Dashboard.PlacesAppend | dashboard.py:137 | the position map of appended children extends that of the earlier ones |
| Dashboard.NewbornAppend | dashboard.py:136-137 | appended new players keep every child a new player |
| Dashboard.NChildren | dashboard.py:157 | `max(n_players // len(survivors) - 1, 1)`: at least 1, and at least `n_players // len(survivors) - 1` |
| Dashboard.ChildrenFit | dashboard.py:157 | with 1 to `n_players` survivors, `n_children >= 1` and the children number at most `n_players` |
| Dashboard.RunEvolution | dashboard.py:142-163 | stops without survivors only in a batch that exists, and a ranked result after at least one batch is never empty (an empty survivor list stops the run). It fails when a batch runs with render on or without the network, and when no batch runs. A ranked result has at most `n_players` distinct players, all with a non-empty trace, ordered by `level + max level` non-increasing, and all survivors of the last batch |
| Dashboard.Key | dashboard.py:162 | the ranking key `level + max(level_data)`: the level plus the largest sample, which some sample attains; the level alone for an empty trace |
| Dashboard.RankPlayers | dashboard.py:162 | fails exactly when some trace is empty. Otherwise it yields every player once, ordered by `level + max level` non-increasing |
| Ranking.RankedCons | dashboard.py:162 | an index that ranks before all of a ranked list may head it |
| Ranking.Insert | dashboard.py:162 | inserting into a ranked list keeps it ranked and adds exactly the new index |
| Ranking.RankPrefix | dashboard.py:162 | the first n indices, ranked |
| Ranking.RankOrder | dashboard.py:162 | a permutation of the indices, keys non-increasing, with equal keys in original order (`sorted` is stable) |
| Ranking.RankOrderDistinct | dashboard.py:162 | the ranking never lists an index twice |
| Ranking.TopBeatsRest | dashboard.py:162 | every index in the top m ranks at least as high as every index outside it |
| Evolution.Trunc | evolution.py:22 | `int()` of a real truncates toward zero, for both signs |
| Evolution.EliteCount | evolution.py:22 | `n_elite` is at least 1 and at least `int(population_size * elite_fraction)`, and it is one of the two |
| Evolution.EliteCountAtMost | evolution.py:22 | with a fraction in `[0, 1]`, `n_elite` never exceeds the population size |
| Evolution.EliteBeatsRest | evolution.py:23 | every selected elite scores at least as high as every unselected network |
| Evolution.Elites | evolution.py:24 | the elites are the networks at the first `n_elite` positions of the order, best first |
| Evolution.Refill | evolution.py:26-29 | the refill loop of `evolve`: when it succeeds it has at least `population_size` members and at least as many as it started with |
| Evolution.RefillSize | evolution.py:26-29 | refilling fails exactly when the pool is empty and the size positive; otherwise the result has `max(size, len(pool))` members |
| Evolution.RefillKeeps | evolution.py:24-29 | refilling only appends: the pool is a prefix of the result, so elites are kept unmutated |
| Evolution.RefillCopies | evolution.py:27-29 | each appended member is a mutated copy of an entry before it: an elite or an earlier clone |
| Evolution.Evolution.constructor | evolution.py:6-9 | exactly `population_size` networks (none for a negative size), each built with layers `[2*n_cells, 32, 16, 2]` |
| Evolution.Evolution.Evaluate | evolution.py:11-18 | one score per network, in population order, each the run of that network |
| Evolution.Evolution.Evolve | evolution.py:20-31 | the population becomes the refill of the elites. If the refill fails (no networks to choose from), the method reports it and keeps the old population; size and rate never change |
| Evolution.EvolveOutcome | evolution.py:20-31 | fails exactly when there are no scores and the size is positive. Otherwise it yields `max(population_size, m)` members, where `m = min(n_elite, len(scores))` is the number of elites, the elites first, best first and unmutated, then mutated copies of earlier entries |

## Left out

- Floating-point arithmetic is modelled with Dafny reals (offsets, the target, the state vector, elite fractions). float32 rounding and `1e-6` underflow are not modelled.
- pygame is left out: drawing, `on_init`, `on_cleanup`, `time.sleep`, key handling in `run` (view.py:55-80, 181-203). Rounds are modelled with render off; with render on, only the round counting is kept.
- The network itself is left out: `torch_network.py`, `TorchSteeringNet` and the old `Network.SGD` path. The network is an abstract value.
- Model.Player.constructor: the network is a constant field. Online training (`train_step` / `SGD`, view.py:87-92), which updates the player's network in place every tick, is not modelled.
- Dashboard.CreateChildren, Dashboard.ChildOfParent, Dashboard.RunEvolution: since training is not modelled, a child copies the network its parent was born with, not the parent's trained network (dashboard.py:134).
- View.App.RunNetwork: the prediction, its exploration noise and its normalisation (view.py:85-103) are not modelled. The move is an integer step given as input, so a fractional position is not representable.
- View.App.UpdateNpcPositions: the target is stated before its final L2 normalisation (view.py:159-161). `diag` is a parameter that `IsDiagonal` pins to the exact diagonal.
- View.Coll: returns the squared distance instead of the distance, which keeps the `== 0` test and the `>= 10` bound (as `>= 100`).
- Random draws are parameters with the source's ranges: moves, respawns, spawn positions, killer directions, `np.random.choice` (`choose`), `argsort` (`order`).
- Clock readings are parameters: `born`, `now` in `Player.LevelUp` / `Player.LevelDown`, and one `now` per tick (`TickDraw.now`).
- View.ParticleVisited, View.KillerVisited: every level change within one tick is stamped with the tick's single clock reading, where the source reads `perf_counter` afresh in each `level_up` / `level_down` (model.py:143, 164). Samples of one tick therefore share a time.
- The `0.8 * width` float bound of `Killer.__init__` is modelled in integers. The `TypeError` / `ValueError` that `randint` raises on a float bound is not modelled.
- The Particle and Killer colour fields (except the killer's level colours), the weakref `getinstances` registries and the no-op `delete` (model.py:29-41, 96-105) are not modelled.
- `get_player` (dashboard.py:37-54) is not modelled: the network construction depends on torch. `run_evolution`'s random layer sizes (dashboard.py:143-147) are not modelled either: the networks of the first generation are an input (`nets`).
- `write_data` (file output, dashboard.py:69-96) and the `__main__` driver are not modelled.
- `Config`'s mutable class defaults become an immutable record (`Dashboard.Config`).
- Mutation is an input: `parent.network.copy()` followed by `mutate` is the `mutate` function parameter, as is `Evolution.mutate` (evolution.py:33-38, Gaussian noise on weight arrays).
- Dashboard.RunSimulationRound: returns the number of ticks played as its success value, where the source returns nothing.
- Dashboard.RunSimulationBatch: requires the players to be distinct objects, which the source's callers always pass. It states the survivors, not each player's whole round (RunSimulationRound states that).
- Dashboard.RunEvolution: states properties of the ranked outcome (bound, distinctness, order, survival, non-empty traces), not the exact players it contains.
- Dashboard.RankPlayers: states the non-increasing key order. The tie order (stable) is stated by Ranking.RankOrder, which it uses, and is not repeated in its contract.
- Evolution.Evolution.Evolve: requires no more scores than networks, which holds because `evaluate` returns exactly one score per network (evolution.py:11-18). With more scores, an elite index could be past the end of the population and raise `IndexError` (evolution.py:24); this is not modelled. The argsort order is an input that sorts scores non-increasingly; its tie order is unspecified, as with `argsort`.
- Evolution.Evolution.Evaluate: `env_class(network=net, render=False)` and `env.run(n_steps)` are the score function `run`.
