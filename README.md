# Arkania simple environment, modelled in Dafny

Arkania's simple environment is a survival game on an 18x18 grid. The grid
is indexed `map[y, x]`, and north is +y. An agent has a position, four
survival stats (health, energy, food, water), a one-item hand and an age.
Every tick it loses 1 food and 1 water, down to 0; its energy drops only while food or
water is below 25, and its health only once one of them is empty. It then
performs one of twelve numbered actions:

- 0 rests.
- 1 to 4 move north, east, south and west.
- 5 picks up, 6 puts down and 7 consumes what is in hand.
- 8 to 11 throw, which does nothing.

Twelve plants ripen through four stages. Ripe plants can be harvested for
food. Food and stones lie on the ground and can be picked up and put down.
Each tick the environment returns an observation: the four stats, a code for
the hand, and a 13x13 egocentric sight matrix. It also returns a reward of 1
per surviving tick, or -1000 together with the end of the episode once
health reaches 0.

The project has two layers.

Value-level rules, in modules `Terrain`, `Entities`, `Sight` and `Rules`:
- The terrain layout is the function `TerrainAt`.
- Every agent action is a pure function on `AgentState` or `EnvState`.
- One tick is `Tick`.
- The sight matrix is `SightMatrix`: the terrain codes, overwritten in
  drawing order by plant, food and stone marks.
- `CellCode` is an independent cell-by-cell definition of the sight matrix,
  and `SightCell` proves the two agree.

The program's own objects, in module `Arkania`:
- `Agent` is a class whose methods update its fields in place.
- `SimpleEnv` is a class holding the terrain array, the agent and the entity
  lists.
- Every method is proved to perform exactly the update of its rule function,
  for example `ensures State() == Moved(old(State()), North)`.
- `SimpleEnv.Step` is proved to perform `Tick`, return `Observe` of the new
  state, and compute the stated reward and done flag.

Module `Properties` proves what holds across ticks:
- The invariant `Consistent`: on the grid, stats in range, plants well
  formed, and no item in two places. It holds after a reset and is kept by
  every tick.
- Plant growth over many ticks.
- Put-down followed by pick-up gives the item back on a non-beach cell with
  no other food or stone there, for 2 energy.
- The pick-up quirk that loses a harvest.
- A concrete first move.

Where the environment's docstrings and the code differ, the model follows
the code. The class docstring says that all actions consume energy and that
eating and drinking replenish it; in the code rest and consume cost no
energy, and consume only ever lowers it: by half of any overflow of food or
water, or by 45 for a stone.
The code's own `found` flag suggests pick-up was meant to stop at the first
find, but only the water check sets it. So after a harvest the beach,
food and stone checks still run, and a later find replaces the harvested food
in the hand. In the same way, a ground stone found after a ground food takes
the hand, and that food, already removed from the ground, is lost.

## Model

| member | source | states |
|---|---|---|
| Terrain.TerrainAt | arkania/simple_env.py:717-740 | every in-grid cell holds a terrain tile; row 0 is rock and row 17 forest; a cell is water exactly in rows 1-2, columns 5-12; it is a beach exactly in row 3, columns 5-12 |
| Terrain.LayTerrain | arkania/simple_env.py:717-740 | the six filling loops and two corner writes leave every cell of the 18x18 array equal to `TerrainAt` |
| Terrain.TileCode | arkania/simple_env.py:456 | the tile table gives every terrain tile a code in 0..7; water is exactly 6, rock exactly 4, forest exactly 7 |
| Entities.Plant.Step | arkania/simple_env.py:174-178 | uid and cell fixed; a well-formed plant stays well formed (stage 0..3, counter 0..50); the stage never decreases; it advances exactly when the counter was 50 and the stage below 3; the counter counts up and restarts at 0 after 50 |
| Entities.Plant.Picked | arkania/simple_env.py:183-184 | stage 0, everything else unchanged |
| Entities.Plant.Harvested | arkania/simple_env.py:294-295 | stage 0 and counter 0, uid and cell unchanged |
| Entities.InHandCode | arkania/simple_env.py:207-214 | 0 exactly for an empty hand, 1 exactly for food, 2 exactly for water, 3 exactly for a stone |
| Rules.Drained | arkania/simple_env.py:216-231 | age +1; position and hand unchanged; water and food lose 1, floored at 0; energy is raised to 0 if negative, then loses 1 for each of water and food below 25 after the decrement; health loses 1.25 if water reached 0 and 0.3125 if food did |
| Rules.Moved | arkania/simple_env.py:236-282 | below 2 energy nothing changes; otherwise energy -2; food, water, hand, age unchanged; at the edge, health 0 and no move; otherwise the agent enters the cell ahead iff it is not rock, and health becomes 0 iff that cell is forest or water; the position stays on the grid |
| Rules.Rested | arkania/simple_env.py:373-385 | food and water +0.5; if both are then at least 25, health +1 and energy +3, otherwise energy +2 and health unchanged; both capped at 100; position, hand, age unchanged |
| Rules.Consumed | arkania/simple_env.py:340-359 | the hand ends empty; an empty hand changes nothing; water +20 and food +35, capped at 100, with health and energy each losing half the excess; a stone costs 45 health and 45 energy; food and water at most 100 stay so |
| Rules.FirstRipeAt | arkania/simple_env.py:290-291 | index of the first ripe plant on the cell: it matches and no earlier one does; the list length if none does |
| Rules.FirstFoodAt | arkania/simple_env.py:306-307 | index of the first food on the cell, or the list length, with the same first-match guarantee |
| Rules.FirstStoneAt | arkania/simple_env.py:316-317 | index of the first stone on the cell, or the list length, with the same first-match guarantee |
| Rules.RemoveAt | arkania/simple_env.py:311 | one element fewer, order kept, and the multiset loses exactly the removed item |
| Rules.PickedUp | arkania/simple_env.py:284-322 | below 1 energy nothing changes; otherwise energy -1 even with a full hand, and with a full hand nothing else changes. With an empty hand, the first ripe plant on the cell is reset and the food id goes up by 1. On a beach the hand becomes water and the lists are unchanged. Off a beach, the first ground food and the first ground stone on the cell leave their lists; the hand is the stone, else that food, else the harvested food, else empty |
| Rules.PutDown | arkania/simple_env.py:324-338 | plants and food id unchanged; below 1 energy nothing changes; otherwise energy -1 and the hand empty; a carried food or stone is appended to its list at the agent's cell; water or an empty hand leaves the lists unchanged |
| Rules.Act | arkania/simple_env.py:526-549 | codes outside 0..7 (the throws 8-11 included) change nothing; the agent stays on the grid; only code 5 touches plants and the food id; only 5 and 6 touch the ground lists; age unchanged |
| Rules.Tick | arkania/simple_env.py:523-558 | the agent stays on the grid, age +1, the number of plants is unchanged |
| Rules.Ahead | arkania/simple_env.py:236-282 | the cell ahead is one step along one axis from the agent |
| Rules.Harvest | arkania/simple_env.py:289-296 | with no ripe plant on the cell nothing changes; otherwise the food id goes up by 1, the hand holds a food off the map carrying the new id, that first ripe plant is reset, and every other plant, the ground lists and the rest of the agent are unchanged |
| Rules.TakeFood | arkania/simple_env.py:305-312 | with no food on the cell nothing changes; otherwise the first food on the cell leaves the list (the multiset loses exactly it) and goes into the hand off the map; plants, stones, food id and the rest of the agent unchanged |
| Rules.TakeStone | arkania/simple_env.py:315-322 | the same for the first stone on the cell |
| Rules.StepPlants | arkania/simple_env.py:551-552 | every plant steps once, in order; uid and cell kept; a well-formed plant stays well formed and its stage does not decrease |
| Rules.Initial | arkania/simple_env.py:750-778 | the agent at (9, 9) with all stats 100, empty hand and age 0; plant i has uid i, seed i's cell and stage, and counter 0, so it is well formed when the seeds are valid; no food or stones; the food id carried over |
| Rules.Observe | arkania/simple_env.py:560-565 | the observation is the four stats, the hand code and the sight matrix of the current state |
| Rules.SeededPlants | arkania/simple_env.py:753-763 | plant i has uid i, the i-th seeded cell and stage, and counter 0 |
| Sight.OutOfBoundsCode | arkania/simple_env.py:468-487 | an off-grid cell shows 4, 5 or 7, never the -999 placeholder; rock wall 4 never at y >= 0, dark forest 7 never at y < 0 |
| Sight.BaseCode | arkania/simple_env.py:464-487 | in the grid, the tile code of the terrain; outside it, the four-quadrant code; always 0..7 |
| Sight.Put | arkania/simple_env.py:495 | writes one window cell, when it is in the window, and leaves every other cell |
| Sight.BaseMatrix | arkania/simple_env.py:458-488 | each window cell holds the base code of the world cell it shows, a code in 0..7 |
| Sight.PlantMarks | arkania/simple_env.py:490-495 | one mark per plant at its cell, with code 8 + stage, so 8..11 for stages 0..3 |
| Sight.FoodMarks | arkania/simple_env.py:497-502 | one mark per food at its cell, with code 12 |
| Sight.StoneMarks | arkania/simple_env.py:504-509 | one mark per stone at its cell, with code 13 |
| Sight.EntityMarks | arkania/simple_env.py:490-509 | the drawing order: all plant marks, then the food marks (code 12, at each food's cell), then the stone marks (code 13, at each stone's cell) |
| Sight.Overlay | arkania/simple_env.py:490-509 | each window cell either keeps its value or shows the code of some mark that hits it |
| Sight.SightMatrix | arkania/simple_env.py:455-513 | a 13x13 matrix; with stages 0..3 every cell holds a code in 0..13 |
| Sight.CellCode | arkania/simple_env.py:455-513 | 13 exactly when a stone is on the cell; 12 exactly when food and no stone is; with stages 0..3, 8..11 exactly when only plants are, and always 0..13 |
| Sight.OverlayAppend | arkania/simple_env.py:490-509 | drawing one mark list and then another is drawing their concatenation |
| Sight.OverlaySkip | arkania/simple_env.py:490-509 | marks that miss a cell leave it as it was |
| Sight.OverlayCovered | arkania/simple_env.py:490-509 | a cell hit by later marks that all carry one code shows that code |
| Sight.OverlayLast | arkania/simple_env.py:490-509 | a cell shows the code of the last mark that hits it |
| Sight.LastPlantAt | arkania/simple_env.py:490-495 | index of the last plant on a cell: it matches and no later one does; -1 if none does |
| Sight.MarksHit | arkania/simple_env.py:490-509 | an entity's mark falls on window cell (r, c) iff the entity stands at world cell (ax - 6 + c, ay + 6 - r); plants draw 8 + stage, food 12, stones 13 |
| Sight.SightNoStone | arkania/simple_env.py:504-509 | with no stone on the cell, it shows what plants and food drew |
| Sight.SightNoFood | arkania/simple_env.py:497-502 | with no food on the cell, it shows what the plants drew |
| Sight.SightStone | arkania/simple_env.py:504-509 | a cell with a stone shows 13 |
| Sight.SightFood | arkania/simple_env.py:497-502 | a cell with food shows 12, whatever plant is under it |
| Sight.SightPlants | arkania/simple_env.py:490-495 | after the plant loop a cell shows 8 + the stage of the last plant on it, or its terrain code |
| Sight.SightCell | arkania/simple_env.py:455-513 | every window cell equals the direct definition `CellCode`: a stone wins, then food, then the last plant, then the terrain or out-of-bounds code |
| Sight.SightShowsEntities | arkania/simple_env.py:455-513 | with stages 0..3, a cell shows a code of 8 or more exactly when a plant, a food or a stone stands on it, and otherwise its terrain or out-of-bounds code |
| Sight.StoneHidesFood | arkania/simple_env.py:497-509 | a stone and a food on the same visible cell show as 13 |
| Sight.CentreNotMarked | arkania/simple_env.py:511 | the centre cell is drawn like any other: with nothing on it, the agent's own terrain code |
| Sight.DiagonalMirror | arkania/simple_env.py:468-472 | off the grid with both coordinates at least 0 and x != y, swapping x and y swaps drop-off 5 and dark forest 7 |
| Properties.InitialConsistent | arkania/simple_env.py:750-778 | the state after a reset satisfies the invariant |
| Properties.DrainedKeepsStats | arkania/simple_env.py:216-231 | the drain keeps stats in range and leaves food and water at most 99 |
| Properties.ActKeepsStats | arkania/simple_env.py:526-549 | after the drain, every action keeps food and water in 0..100 and health and energy at most 100 |
| Properties.PlantsStepOk | arkania/simple_env.py:551-552 | stepping every plant keeps every plant well formed |
| Properties.RemoveKeepsDistinctFoods | arkania/simple_env.py:311 | removing a food keeps ids distinct, and its id is no longer on the ground |
| Properties.RemoveKeepsDistinctStones | arkania/simple_env.py:321 | removing a stone keeps ids distinct, and its id is no longer on the ground |
| Properties.PickedUpExclusive | arkania/simple_env.py:284-322 | after pick-up no item is in two places (an item may be lost) and every plant is still well formed; a harvest mints an id not on the ground |
| Properties.PutDownExclusive | arkania/simple_env.py:324-338 | after put-down no item is in two places |
| Properties.ActExclusive | arkania/simple_env.py:526-549 | after any action no item is in two places and every plant is still well formed |
| Properties.TickKeepsConsistent | arkania/simple_env.py:523-558 | every tick keeps the invariant Consistent: agent on the grid, food and water in 0..100, health and energy at most 100, plants well formed, distinct item ids and a carried item not also on the ground |
| Properties.Grown | arkania/simple_env.py:174-178 | n ticks of growth keep uid and cell, keep a well-formed plant well formed, and never lower its stage |
| Properties.CounterCounts | arkania/simple_env.py:174-178 | while the counter stays within 50, n ticks of growth only add n to the counter |
| Properties.StageAdvancesOn51st | arkania/simple_env.py:174-178 | from counter 0 the stage holds for 50 ticks and advances, capped at 3, on the 51st, when the counter restarts |
| Properties.TickStepsEveryPlant | arkania/simple_env.py:551-552 | each plant steps exactly once per tick, after the action |
| Properties.TickStageMonotone | arkania/simple_env.py:174-178 | over a tick a plant stays well formed and its stage does not decrease, unless this tick's pick-up harvested it: then it was ripe on the agent's cell and is back at stage 0 |
| Properties.PutDownPickUpFood | arkania/simple_env.py:284-338 | putting food down and picking it up on a non-beach cell without other food or stones gives the same hand and lists back, for 2 energy |
| Properties.PutDownPickUpStone | arkania/simple_env.py:284-338 | on a non-beach cell with no other stone, putting a stone down and picking it up gives the same hand and stone list back, for 2 energy; a ground food on that cell is taken off its list and lost |
| Properties.TickMakesNoStones | arkania/simple_env.py:315-338 | with no stone on the ground and none in hand, a tick creates none, so the stone paths are never reached after a reset |
| Properties.HarvestLostToGroundFood | arkania/simple_env.py:289-312 | with a ripe plant and ground food on one non-beach cell, the plant is reset and an id spent, but the hand takes the ground food and the minted food is nowhere |
| Properties.FirstMoveNorth | arkania/simple_env.py:523-529 | after a reset, moving north takes the agent to (9, 10) with energy 98 and food and water 99 |
| Arkania.Agent.constructor | arkania/simple_env.py:188-199 | a new agent at the given cell, all four stats 100, empty hand, age 0 |
| Arkania.Agent.Step | arkania/simple_env.py:216-231 | the field updates perform `Drained` |
| Arkania.Agent.MoveNorth | arkania/simple_env.py:236-246 | reading the environment's terrain array, performs `Moved(_, North)` |
| Arkania.Agent.MoveEast | arkania/simple_env.py:248-258 | performs `Moved(_, East)` |
| Arkania.Agent.MoveSouth | arkania/simple_env.py:260-270 | performs `Moved(_, South)` |
| Arkania.Agent.MoveWest | arkania/simple_env.py:272-282 | performs `Moved(_, West)` |
| Arkania.Agent.PickUp | arkania/simple_env.py:284-322 | the agent's fields and the environment's plants, ground lists and food id change exactly as in `PickedUp` |
| Arkania.Agent.HarvestRipe | arkania/simple_env.py:289-296 | the harvest search loop performs `Harvest` |
| Arkania.Agent.TakeGroundFood | arkania/simple_env.py:305-312 | the ground-food search loop performs `TakeFood` |
| Arkania.Agent.TakeGroundStone | arkania/simple_env.py:315-322 | the ground-stone search loop performs `TakeStone` |
| Arkania.Agent.PutDown | arkania/simple_env.py:324-338 | performs `Rules.PutDown` on the agent and the ground lists |
| Arkania.Agent.ConsumeItem | arkania/simple_env.py:340-359 | performs `Consumed` |
| Arkania.Agent.Rest | arkania/simple_env.py:373-385 | performs `Rested` |
| Arkania.SeedPlants | arkania/simple_env.py:753-763 | the seeding loop builds exactly `SeededPlants` |
| Arkania.TerrainWindow | arkania/simple_env.py:458-488 | the nested loops fill a fresh 13x13 array equal to `BaseMatrix` |
| Arkania.OverlayPrefix | arkania/simple_env.py:490-509 | drawing one more mark is one more `Put` |
| Arkania.SetCell | arkania/simple_env.py:495 | writing one array cell performs `Put` on the matrix the array holds |
| Arkania.DrawPlants | arkania/simple_env.py:490-495 | the plant loop draws `PlantMarks` over the window |
| Arkania.DrawFoods | arkania/simple_env.py:497-502 | the food loop draws `FoodMarks` over the window |
| Arkania.DrawStones | arkania/simple_env.py:504-509 | the stone loop draws `StoneMarks` over the window |
| Arkania.SimpleEnv.constructor | arkania/simple_env.py:440-447 | a new environment, reset once: the state is `Initial(seeds, 0)`, the terrain array holds the layout, and the invariant holds |
| Arkania.SimpleEnv.Reset | arkania/simple_env.py:450-452 | re-lays the terrain in place, makes a new agent and seeded plants, and empties the ground lists; the food id carries over; the invariant holds |
| Arkania.SimpleEnv.GetSightMatrix | arkania/simple_env.py:455-513 | the returned matrix is exactly `SightMatrix` of the agent's cell and the three lists |
| Arkania.SimpleEnv.Dispatch | arkania/simple_env.py:526-549 | the action dispatch performs `Act` |
| Arkania.SimpleEnv.GrowPlants | arkania/simple_env.py:551-552 | every plant steps once, in place |
| Arkania.SimpleEnv.Step | arkania/simple_env.py:516-576 | the tick performs `Tick`, keeps the invariant and the agent object, returns `Observe` of the new state, and returns reward -1000 and done exactly when health is at most 0, otherwise reward 1 and not done |

## Left out

- Rendering (the `Tile` and `Tileset` classes, every `draw`, `render`, `dark_areas`, the viewer and the light level) is drawing only, with no effect on the simulation.
- Throwing: the four throw actions do nothing in the code, so `Act` treats codes 8-11 as no-ops and no methods stand for them. `Stone.throw` is never called, and `Stone.step` discards what it computes. Stone seeding is commented out.
- `Stone.step` and `Food.step` do nothing, so there are no loops for them in `SimpleEnv.Step`.
- Randomness: plant cells and stages are the caller's `seeds`. `ValidSeeds` asks what rejection sampling guarantees: twelve distinct cells in columns 1-16 and rows 4-15, and stages 0-3.
- The `objects` array used by rejection sampling is not modelled. In the code it persists across resets, so later resets also avoid earlier resets' plant cells, and after sixteen resets sampling can no longer finish. The model accepts any distinct cells on every reset.
- The agent's `facing` field and the turn tables are never read or written by any action.
- `season`, `day` and `time` are set by a reset and never used.
- Plants, food and stones are values (`datatype`s) held in sequence fields of `SimpleEnv`, not separate objects. In the code each item is referenced from one place only (its list or the hand), so no aliasing is lost. `Plant.step` is the function `Plant.Step`, applied in place to the list by `SimpleEnv.GrowPlants`.
- The agent's back-reference to its environment is passed as the `env` parameter of the methods that use it.
- `SimpleEnv.constructor` also performs the first reset. In the code the constructor only allocates the arrays and sets the food id to 0, and `reset` must be called before `step`. `SimpleEnv.Reset` is the later resets.
- Python floats are modelled as exact reals. Every constant in the stat arithmetic (1, 2, 0.5, 100/80, 25/80, 20, 35, 45 and halving) is exact in binary, so small values lose nothing. Rounding of very large magnitudes is not modelled.
- The `seed` argument of the environment's constructor is stored but never read, so the random draws are never seeded by it; the model drops the parameter, since the draws are the caller's `seeds` anyway.
- The `debug` dictionary that `step` returns is always empty, so `SimpleEnv.Step` does not return it.
- Stones: no code path in the environment ever creates one (seeding is commented out), so everything about stones is unreachable in practice; `Properties.TickMakesNoStones` proves a tick never introduces one.
- `Rules.Tick`: its own contract states only position, age and plant count; the full effect of a tick is its composition of `Drained`, `Act` and `Plant.Step`, with the invariant proved separately in `Properties.TickKeepsConsistent`.
- arkania/discrete_env.py, arkania/continuous_env.py and example.py are not part of this model: the first has only empty actions and a constant state, the second is an empty stub, and the third is a keyboard loop.
