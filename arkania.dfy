/** The simple environment as the program has it: an agent object whose
    actions update its fields in place, and an environment object holding the
    terrain array, the agent and the entity lists. Every method is proved to
    perform exactly the update of the matching function in module Rules. */
module Arkania {
  import opened Terrain
  import opened Entities
  import opened Sight
  import opened Rules
  import opened Properties

  class Agent {
    const uid: int
    var x: int
    var y: int
    var food: real
    var water: real
    var energy: real
    var health: real
    var inHand: Hand
    var age: int

    /** The agent's fields as a value. */
    function State(): (s: AgentState)
      reads this
      ensures s.x == x && s.y == y && s.hand == inHand && s.age == age
    {
      AgentState(x, y, health, energy, food, water, inHand, age)
    }

    /** The agent together with the entity lists of its environment. */
    function Snapshot(env: SimpleEnv): (e: EnvState)
      reads this, env
      ensures e.agent == State() && e.plants == env.plants && e.foods == env.foods
      ensures e.stones == env.stones && e.foodId == env.foodId
    {
      EnvState(State(), env.plants, env.foods, env.stones, env.foodId)
    }

    /** A new agent: every stat at 100, nothing in hand, age 0. */
    constructor(uid: int, x: int, y: int)
      ensures this.uid == uid
      ensures State() == AgentState(x, y, 100.0, 100.0, 100.0, 100.0, Empty, 0)
    {
      this.uid := uid;
      this.x := x;
      this.y := y;
      food := 100.0;
      water := 100.0;
      energy := 100.0;
      health := 100.0;
      inHand := Empty;
      age := 0;
    }

    /** The passive drain at the start of every tick. */
    method Step()
      modifies this
      ensures State() == Drained(old(State()))
    {
      if energy < 0.0 {
        energy := 0.0;
      }
      age := age + 1;
      water := water - 1.0;
      food := food - 1.0;
      if water < 25.0 {
        energy := energy - 1.0;
      }
      if water <= 0.0 {
        water := 0.0;
        health := health - 100.0 / 80.0;
      }
      if food < 25.0 {
        energy := energy - 1.0;
      }
      if food <= 0.0 {
        food := 0.0;
        health := health - 25.0 / 80.0;
      }
    }

    method MoveNorth(env: SimpleEnv)
      requires IsLayout(env.terrain) && InGrid(x, y)
      modifies this
      ensures State() == Moved(old(State()), North)
    {
      if energy >= 2.0 {
        energy := energy - 2.0;
        if y == 17 {
          health := 0.0;
        } else {
          var ahead := env.terrain[y + 1, x];
          if ahead != ROCK {
            y := y + 1;
          }
          if ahead == FOREST || ahead == WATER {
            health := 0.0;
          }
        }
      }
    }

    method MoveEast(env: SimpleEnv)
      requires IsLayout(env.terrain) && InGrid(x, y)
      modifies this
      ensures State() == Moved(old(State()), East)
    {
      if energy >= 2.0 {
        energy := energy - 2.0;
        if x == 17 {
          health := 0.0;
        } else {
          var ahead := env.terrain[y, x + 1];
          if ahead != ROCK {
            x := x + 1;
          }
          if ahead == FOREST || ahead == WATER {
            health := 0.0;
          }
        }
      }
    }

    method MoveSouth(env: SimpleEnv)
      requires IsLayout(env.terrain) && InGrid(x, y)
      modifies this
      ensures State() == Moved(old(State()), South)
    {
      if energy >= 2.0 {
        energy := energy - 2.0;
        if y == 0 {
          health := 0.0;
        } else {
          var ahead := env.terrain[y - 1, x];
          if ahead != ROCK {
            y := y - 1;
          }
          if ahead == FOREST || ahead == WATER {
            health := 0.0;
          }
        }
      }
    }

    method MoveWest(env: SimpleEnv)
      requires IsLayout(env.terrain) && InGrid(x, y)
      modifies this
      ensures State() == Moved(old(State()), West)
    {
      if energy >= 2.0 {
        energy := energy - 2.0;
        if x == 0 {
          health := 0.0;
        } else {
          var ahead := env.terrain[y, x - 1];
          if ahead != ROCK {
            x := x - 1;
          }
          if ahead == FOREST || ahead == WATER {
            health := 0.0;
          }
        }
      }
    }

    /** Pick-up: with an empty hand, harvest; then water from a beach, or
        else a ground food and then a ground stone. Nothing marks the harvest
        as a find, so the later searches still run after it. */
    method PickUp(env: SimpleEnv)
      requires IsLayout(env.terrain) && InGrid(x, y)
      modifies this, env`plants, env`foods, env`stones, env`foodId
      ensures Snapshot(env) == PickedUp(old(Snapshot(env)))
    {
      ghost var e := Snapshot(env);
      if energy >= 1.0 {
        energy := energy - 1.0;
        ghost var e1 := Snapshot(env);
        if inHand == Empty {
          var found := false;
          HarvestRipe(env);
          ghost var e2 := Snapshot(env);
          assert e2 == Harvest(e1);
          if IsBeach(env.terrain[y, x]) {
            inHand := Water;
            found := true;
          }
          if !found {
            TakeGroundFood(env);
          }
          if !found {
            TakeGroundStone(env);
          }
          assert Snapshot(env) == if IsBeach(TerrainAt(e2.agent.x, e2.agent.y)) then e2.(agent := e2.agent.(hand := Water))
                                  else TakeStone(TakeFood(e2));
        }
      }
    }

    /** The harvest search of pick-up: the first ripe plant on the agent's
        cell is reset and the hand gets a food item with the next food id. */
    method HarvestRipe(env: SimpleEnv)
      modifies this, env`plants, env`foodId
      ensures Snapshot(env) == Harvest(old(Snapshot(env)))
    {
      var i := 0;
      while i < |env.plants| && !(env.plants[i].x == x && env.plants[i].y == y && env.plants[i].stage == 3)
        invariant 0 <= i <= |env.plants|
        invariant forall k | 0 <= k < i :: !(env.plants[k].x == x && env.plants[k].y == y && env.plants[k].Ripe())
      {
        i := i + 1;
      }
      if i < |env.plants| {
        env.foodId := env.foodId + 1;
        inHand := FoodItem(Food(env.foodId, -1, -1));
        env.plants := env.plants[i := env.plants[i].(stage := 0, counter := 0)];
      }
    }

    /** The ground-food search of pick-up: the first food on the agent's cell
        leaves the list and goes into the hand. */
    method TakeGroundFood(env: SimpleEnv)
      modifies this, env`foods
      ensures Snapshot(env) == TakeFood(old(Snapshot(env)))
    {
      var j := 0;
      while j < |env.foods| && !(env.foods[j].x == x && env.foods[j].y == y)
        invariant 0 <= j <= |env.foods|
        invariant forall k | 0 <= k < j :: !(env.foods[k].x == x && env.foods[k].y == y)
      {
        j := j + 1;
      }
      if j < |env.foods| {
        inHand := FoodItem(env.foods[j].(x := -1, y := -1));
        env.foods := env.foods[..j] + env.foods[j + 1..];
      }
    }

    /** The ground-stone search of pick-up, like the food search. */
    method TakeGroundStone(env: SimpleEnv)
      modifies this, env`stones
      ensures Snapshot(env) == TakeStone(old(Snapshot(env)))
    {
      var k := 0;
      while k < |env.stones| && !(env.stones[k].x == x && env.stones[k].y == y)
        invariant 0 <= k <= |env.stones|
        invariant forall n | 0 <= n < k :: !(env.stones[n].x == x && env.stones[n].y == y)
      {
        k := k + 1;
      }
      if k < |env.stones| {
        inHand := StoneItem(env.stones[k].(x := -1, y := -1));
        env.stones := env.stones[..k] + env.stones[k + 1..];
      }
    }

    /** Put-down: a carried food or stone goes onto the agent's cell at the
        end of its list; the hand is emptied. */
    method PutDown(env: SimpleEnv)
      modifies this, env`foods, env`stones
      ensures Snapshot(env) == Rules.PutDown(old(Snapshot(env)))
    {
      if energy >= 1.0 {
        energy := energy - 1.0;
        if inHand != Empty {
          if inHand.StoneItem? {
            var s := inHand.stone.(x := x, y := y);
            env.stones := env.stones + [s];
          }
          if inHand.FoodItem? {
            var f := inHand.food.(x := x, y := y);
            env.foods := env.foods + [f];
          }
          inHand := Empty;
        }
      }
    }

    method ConsumeItem()
      modifies this
      ensures State() == Consumed(old(State()))
    {
      if inHand != Empty {
        if inHand == Water {
          inHand := Empty;
          water := water + 20.0;
          if water > 100.0 {
            health := health - (water - 100.0) / 2.0;
            energy := energy - (water - 100.0) / 2.0;
            water := 100.0;
          }
        } else if inHand.FoodItem? {
          inHand := Empty;
          food := food + 35.0;
          if food > 100.0 {
            health := health - (food - 100.0) / 2.0;
            energy := energy - (food - 100.0) / 2.0;
            food := 100.0;
          }
        } else if inHand.StoneItem? {
          health := health - 45.0;
          energy := energy - 45.0;
          inHand := Empty;
        }
      }
    }

    method Rest()
      modifies this
      ensures State() == Rested(old(State()))
    {
      food := food + 0.5;
      water := water + 0.5;
      if food >= 25.0 && water >= 25.0 {
        health := health + 1.0;
        energy := energy + 3.0;
      } else {
        health := health + 0.0;
        energy := energy + 2.0;
      }
      if health > 100.0 {
        health := 100.0;
      }
      if energy > 100.0 {
        energy := 100.0;
      }
    }
  }

  /** The twelve plants of a reset, in seed order, each with counter 0. */
  method SeedPlants(seeds: seq<PlantSeed>) returns (plants: seq<Plant>)
    requires |seeds| == PLANT_COUNT
    ensures plants == SeededPlants(seeds)
  {
    plants := [];
    for idx := 0 to PLANT_COUNT
      invariant |plants| == idx
      invariant forall i | 0 <= i < idx ::
                  plants[i] == Plant(i, seeds[i].x, seeds[i].y, seeds[i].stage, 0)
    {
      var plant := Plant(idx, seeds[idx].x, seeds[idx].y, seeds[idx].stage, 0);
      plants := plants + [plant];
    }
  }

  /** The window cells the array holds, as a matrix. */
  ghost predicate Holds(window: array2<int>, m: Matrix)
    reads window
  {
    window.Length0 == WIDTH && window.Length1 == WIDTH && IsWindow(m)
    && forall r, c | InWindow(r, c) :: window[r, c] == m[r][c]
  }

  lemma WindowsEqual(a: Matrix, b: Matrix)
    requires IsWindow(a) && IsWindow(b)
    requires forall r, c | InWindow(r, c) :: a[r][c] == b[r][c]
    ensures a == b
  {
    forall r | 0 <= r < WIDTH ensures a[r] == b[r] {
      assert forall c | 0 <= c < WIDTH :: a[r][c] == b[r][c];
    }
  }

  /** The terrain part of the sight matrix: every window cell holds the
      code of its world cell, by the tile table inside the grid and by the
      four-quadrant rule outside it. */
  method TerrainWindow(terrain: array2<int>, ax: int, ay: int) returns (window: array2<int>)
    requires IsLayout(terrain)
    ensures fresh(window) && Holds(window, BaseMatrix(ax, ay))
  {
    var size := RADIUS;
    window := new int[2 * size + 1, 2 * size + 1];
    ghost var base := BaseMatrix(ax, ay);
    for r := 0 to 2 * size + 1
      invariant forall r', c' | 0 <= r' < r && 0 <= c' < WIDTH :: window[r', c'] == base[r'][c']
    {
      for c := 0 to 2 * size + 1
        invariant forall r', c' | 0 <= r' < r && 0 <= c' < WIDTH :: window[r', c'] == base[r'][c']
        invariant forall c' | 0 <= c' < c :: window[r, c'] == base[r][c']
      {
        var x := ax - size + c;
        var y := ay + size - r;
        var v := -999;
        if 0 <= x <= 17 && 0 <= y <= 17 {
          var tile := terrain[y, x];
          v := TILE_MAP[tile];
        } else {
          if x >= 0 && y >= 0 {
            if x >= y {
              v := 5;   // drop-off
            } else {
              v := 7;   // dark forest
            }
          } else if x < 0 && y >= 0 {
            if 17 - x >= y {
              v := 5;
            } else {
              v := 7;
            }
          } else if x >= 0 && y < 0 {
            if 17 - x >= y {
              v := 4;
            } else {
              v := 5;
            }
          } else if x < 0 && y < 0 {
            if x >= y {
              v := 4;
            } else {
              v := 5;
            }
          }
        }
        assert v == BaseCode(x, y);
        window[r, c] := v;
      }
    }
  }

  /** Drawing one more mark is one more Put. */
  lemma OverlayPrefix(m: Matrix, ax: int, ay: int, ms: seq<Mark>, i: int)
    requires IsWindow(m) && 0 <= i < |ms|
    ensures Overlay(m, ax, ay, ms[..i + 1])
            == Put(Overlay(m, ax, ay, ms[..i]), ay - ms[i].y + RADIUS, ms[i].x - ax + RADIUS, ms[i].code)
  {
    assert ms[..i + 1][..i] == ms[..i];
  }

  /** Writes one window cell. */
  method SetCell(window: array2<int>, ghost m: Matrix, r: int, c: int, v: int)
    requires Holds(window, m) && InWindow(r, c)
    modifies window
    ensures Holds(window, Put(m, r, c, v))
  {
    window[r, c] := v;
  }

  /** Draws every plant in the window as 8 plus its stage. */
  method DrawPlants(window: array2<int>, ghost m: Matrix, ax: int, ay: int, plants: seq<Plant>)
    requires Holds(window, m)
    modifies window
    ensures Holds(window, Overlay(m, ax, ay, PlantMarks(plants)))
  {
    var size := RADIUS;
    ghost var ms := PlantMarks(plants);
    assert ms[..0] == [];
    for i := 0 to |plants|
      invariant Holds(window, Overlay(m, ax, ay, ms[..i]))
    {
      var p := plants[i];
      var r := ay - p.y + size;
      var c := p.x - ax + size;
      OverlayPrefix(m, ax, ay, ms, i);
      if 0 <= r <= 2 * size && 0 <= c <= 2 * size {
        SetCell(window, Overlay(m, ax, ay, ms[..i]), r, c, 8 + p.stage);
      }
    }
    assert ms[..|plants|] == ms;
  }

  /** Draws every ground food in the window as 12. */
  method DrawFoods(window: array2<int>, ghost m: Matrix, ax: int, ay: int, foods: seq<Food>)
    requires Holds(window, m)
    modifies window
    ensures Holds(window, Overlay(m, ax, ay, FoodMarks(foods)))
  {
    var size := RADIUS;
    ghost var ms := FoodMarks(foods);
    assert ms[..0] == [];
    for i := 0 to |foods|
      invariant Holds(window, Overlay(m, ax, ay, ms[..i]))
    {
      var f := foods[i];
      var r := ay - f.y + size;
      var c := f.x - ax + size;
      OverlayPrefix(m, ax, ay, ms, i);
      if 0 <= r <= 2 * size && 0 <= c <= 2 * size {
        SetCell(window, Overlay(m, ax, ay, ms[..i]), r, c, 12);
      }
    }
    assert ms[..|foods|] == ms;
  }

  /** Draws every stone in the window as 13. */
  method DrawStones(window: array2<int>, ghost m: Matrix, ax: int, ay: int, stones: seq<Stone>)
    requires Holds(window, m)
    modifies window
    ensures Holds(window, Overlay(m, ax, ay, StoneMarks(stones)))
  {
    var size := RADIUS;
    ghost var ms := StoneMarks(stones);
    assert ms[..0] == [];
    for i := 0 to |stones|
      invariant Holds(window, Overlay(m, ax, ay, ms[..i]))
    {
      var s := stones[i];
      var r := ay - s.y + size;
      var c := s.x - ax + size;
      OverlayPrefix(m, ax, ay, ms, i);
      if 0 <= r <= 2 * size && 0 <= c <= 2 * size {
        SetCell(window, Overlay(m, ax, ay, ms[..i]), r, c, 13);
      }
    }
    assert ms[..|stones|] == ms;
  }

  class SimpleEnv {
    const terrain: array2<int>    // the map, indexed [y, x]
    var agent: Agent
    var plants: seq<Plant>
    var foods: seq<Food>
    var stones: seq<Stone>
    var foodId: int

    /** The environment's state as a value. */
    function View(): (e: EnvState)
      reads this, agent
      ensures e.agent == agent.State() && e.plants == plants && e.foods == foods
      ensures e.stones == stones && e.foodId == foodId
    {
      EnvState(agent.State(), plants, foods, stones, foodId)
    }

    ghost predicate Valid()
      reads this, agent, terrain
    {
      IsLayout(terrain) && Consistent(View())
    }

    /** A new environment, reset once: the terrain laid out, the agent at
        (9, 9), the seeded plants, empty ground lists and food id 0. */
    constructor(seeds: seq<PlantSeed>)
      requires ValidSeeds(seeds)
      ensures Valid() && fresh(agent) && fresh(terrain)
      ensures View() == Initial(seeds, 0)
    {
      var grid := new int[SIZE, SIZE];
      LayTerrain(grid);
      var a := new Agent(1, 9, 9);
      var ps := SeedPlants(seeds);
      terrain := grid;
      agent := a;
      plants := ps;
      stones := [];
      foods := [];
      foodId := 0;
      new;
      InitialConsistent(seeds, 0);
    }

    /** A reset: the terrain laid out again in the same array, a new agent,
        newly seeded plants and empty ground lists; the food id counter
        carries over. */
    method Reset(seeds: seq<PlantSeed>)
      requires ValidSeeds(seeds) && terrain.Length0 == SIZE && terrain.Length1 == SIZE
      modifies this, terrain
      ensures Valid() && fresh(agent)
      ensures View() == Initial(seeds, old(foodId))
    {
      LayTerrain(terrain);
      agent := new Agent(1, 9, 9);
      plants := SeedPlants(seeds);
      stones := [];
      foods := [];
      InitialConsistent(seeds, foodId);
    }

    /** The 13x13 observation of an agent: terrain codes first, then the
        plants, the ground food and the stones drawn over them in list order. */
    method GetSightMatrix(a: Agent) returns (smat: Matrix)
      requires IsLayout(terrain)
      ensures smat == SightMatrix(a.x, a.y, plants, foods, stones)
    {
      var window := TerrainWindow(terrain, a.x, a.y);
      ghost var m0 := BaseMatrix(a.x, a.y);
      DrawPlants(window, m0, a.x, a.y, plants);
      ghost var m1 := Overlay(m0, a.x, a.y, PlantMarks(plants));
      DrawFoods(window, m1, a.x, a.y, foods);
      ghost var m2 := Overlay(m1, a.x, a.y, FoodMarks(foods));
      DrawStones(window, m2, a.x, a.y, stones);
      OverlayAppend(m0, a.x, a.y, PlantMarks(plants), FoodMarks(foods));
      OverlayAppend(m0, a.x, a.y, PlantMarks(plants) + FoodMarks(foods), StoneMarks(stones));
      smat := seq(WIDTH, r requires 0 <= r < WIDTH reads window =>
                         seq(WIDTH, c requires 0 <= c < WIDTH reads window => window[r, c]));
      WindowsEqual(smat, SightMatrix(a.x, a.y, plants, foods, stones));
    }

    /** The action dispatch of a tick. */
    method Dispatch(action: int)
      requires IsLayout(terrain) && InGrid(agent.x, agent.y)
      modifies agent, this`plants, this`foods, this`stones, this`foodId
      ensures View() == Act(old(View()), action)
    {
      if action == 0 {
        agent.Rest();
      } else if action == 1 {
        agent.MoveNorth(this);
      } else if action == 2 {
        agent.MoveEast(this);
      } else if action == 3 {
        agent.MoveSouth(this);
      } else if action == 4 {
        agent.MoveWest(this);
      } else if action == 5 {
        agent.PickUp(this);
      } else if action == 6 {
        agent.PutDown(this);
      } else if action == 7 {
        agent.ConsumeItem();
      }
      // actions 8 to 11 throw, which does nothing
    }

    /** Every plant grows once, in list order. */
    method GrowPlants()
      modifies this`plants
      ensures plants == StepPlants(old(plants))
    {
      for i := 0 to |plants|
        invariant |plants| == |old(plants)|
        invariant forall k | 0 <= k < i :: plants[k] == old(plants)[k].Step()
        invariant forall k | i <= k < |plants| :: plants[k] == old(plants)[k]
      {
        plants := plants[i := plants[i].Step()];
      }
    }

    /** One tick: the agent's drain, the action, then every plant grows once;
        the observation is read afterwards, and the episode ends when health
        has reached 0. */
    method Step(action: int) returns (state: Observation, reward: int, isDone: bool)
      requires Valid()
      modifies this, agent
      ensures Valid() && agent == old(agent)
      ensures View() == Tick(old(View()), action)
      ensures state == Observe(View())
      ensures isDone <==> agent.health <= 0.0
      ensures reward == if agent.health <= 0.0 then -1000 else 1
    {
      ghost var e := View();
      agent.Step();
      Dispatch(action);
      GrowPlants();
      TickKeepsConsistent(e, action);
      var sight := GetSightMatrix(agent);
      state := Observation(agent.health, agent.energy, agent.food, agent.water,
                           InHandCode(agent.inHand), sight);
      reward := 1;
      isDone := false;
      if agent.health <= 0.0 {
        reward := -1000;
        isDone := true;
      }
    }
  }
}
