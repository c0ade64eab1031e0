/** What holds across ticks: the invariant every tick keeps, plant growth over
    many ticks, and how put-down and pick-up undo each other. */
module Properties {
  import opened Terrain
  import opened Entities
  import opened Rules

  // ------------------------------------------------ the invariant

  /** Food and water in [0, 100]; health and energy at most 100 (energy and
      health have no lower bound). */
  predicate StatsInRange(a: AgentState) {
    0.0 <= a.food <= 100.0 && 0.0 <= a.water <= 100.0 && a.health <= 100.0 && a.energy <= 100.0
  }

  predicate PlantsOk(ps: seq<Plant>) {
    forall i | 0 <= i < |ps| :: ps[i].Ok()
  }

  predicate FoodIdsDistinct(fs: seq<Food>) {
    forall i, j | 0 <= i < j < |fs| :: fs[i].uid != fs[j].uid
  }

  predicate StoneIdsDistinct(ss: seq<Stone>) {
    forall i, j | 0 <= i < j < |ss| :: ss[i].uid != ss[j].uid
  }

  predicate NoFoodWithId(fs: seq<Food>, uid: int) {
    forall i | 0 <= i < |fs| :: fs[i].uid != uid
  }

  predicate NoStoneWithId(ss: seq<Stone>, uid: int) {
    forall i | 0 <= i < |ss| :: ss[i].uid != uid
  }

  /** No item is in two places: no id occurs twice on the ground,
      and the carried item is not also on the ground. Food ids never exceed
      the counter, so a harvest mints a fresh one. A carried item lies at
      (-1, -1). */
  predicate ItemsExclusive(e: EnvState) {
    && FoodIdsDistinct(e.foods) && StoneIdsDistinct(e.stones)
    && (forall i | 0 <= i < |e.foods| :: e.foods[i].uid <= e.foodId)
    && (e.agent.hand.FoodItem? ==>
          var f := e.agent.hand.food;
          f.uid <= e.foodId && NoFoodWithId(e.foods, f.uid) && f.x == -1 && f.y == -1)
    && (e.agent.hand.StoneItem? ==>
          var s := e.agent.hand.stone;
          NoStoneWithId(e.stones, s.uid) && s.x == -1 && s.y == -1)
  }

  /** The invariant of a running environment. */
  predicate Consistent(e: EnvState) {
    InGrid(e.agent.x, e.agent.y) && StatsInRange(e.agent) && PlantsOk(e.plants) && ItemsExclusive(e)
  }

  lemma InitialConsistent(seeds: seq<PlantSeed>, foodId: int)
    requires ValidSeeds(seeds)
    ensures Consistent(Initial(seeds, foodId))
  {
  }

  lemma DrainedKeepsStats(a: AgentState)
    requires StatsInRange(a)
    ensures StatsInRange(Drained(a))
    ensures Drained(a).food <= 99.0 && Drained(a).water <= 99.0
  {
  }

  lemma ActKeepsStats(e: EnvState, action: int)
    requires InGrid(e.agent.x, e.agent.y) && StatsInRange(e.agent)
    requires e.agent.food <= 99.5 && e.agent.water <= 99.5
    ensures StatsInRange(Act(e, action).agent)
  {
  }

  lemma PlantsStepOk(ps: seq<Plant>)
    requires PlantsOk(ps)
    ensures PlantsOk(StepPlants(ps))
  {
    forall i | 0 <= i < |ps| ensures StepPlants(ps)[i].Ok() {
      assert StepPlants(ps)[i] == ps[i].Step();
    }
  }

  lemma RemoveKeepsDistinctFoods(fs: seq<Food>, j: nat)
    requires FoodIdsDistinct(fs) && j < |fs|
    ensures FoodIdsDistinct(RemoveAt(fs, j)) && NoFoodWithId(RemoveAt(fs, j), fs[j].uid)
  {
  }

  lemma RemoveKeepsDistinctStones(ss: seq<Stone>, k: nat)
    requires StoneIdsDistinct(ss) && k < |ss|
    ensures StoneIdsDistinct(RemoveAt(ss, k)) && NoStoneWithId(RemoveAt(ss, k), ss[k].uid)
  {
  }

  lemma PickedUpExclusive(e: EnvState)
    requires InGrid(e.agent.x, e.agent.y) && ItemsExclusive(e) && PlantsOk(e.plants)
    ensures ItemsExclusive(PickedUp(e)) && PlantsOk(PickedUp(e).plants)
  {
    var r := PickedUp(e);
    if e.agent.energy >= 1.0 && e.agent.hand == Empty {
      var (x, y) := (e.agent.x, e.agent.y);
      var i := FirstRipeAt(e.plants, x, y);
      var j := FirstFoodAt(e.foods, x, y);
      var k := FirstStoneAt(e.stones, x, y);
      if i < |e.plants| {
        assert PlantsOk(e.plants[i := e.plants[i].Harvested()]);
      }
      if !IsBeach(TerrainAt(x, y)) {
        if j < |e.foods| {
          RemoveKeepsDistinctFoods(e.foods, j);
        }
        if k < |e.stones| {
          RemoveKeepsDistinctStones(e.stones, k);
        }
        if k == |e.stones| && j == |e.foods| && i < |e.plants| {
          assert NoFoodWithId(e.foods, e.foodId + 1);
        }
      }
    }
  }

  lemma PutDownExclusive(e: EnvState)
    requires ItemsExclusive(e)
    ensures ItemsExclusive(PutDown(e))
  {
    var r := PutDown(e);
    if e.agent.energy >= 1.0 && e.agent.hand.FoodItem? {
      var f := e.agent.hand.food.(x := e.agent.x, y := e.agent.y);
      assert r.foods == e.foods + [f];
      assert forall i | 0 <= i < |e.foods| :: r.foods[i] == e.foods[i];
    }
    if e.agent.energy >= 1.0 && e.agent.hand.StoneItem? {
      var s := e.agent.hand.stone.(x := e.agent.x, y := e.agent.y);
      assert r.stones == e.stones + [s];
      assert forall i | 0 <= i < |e.stones| :: r.stones[i] == e.stones[i];
    }
  }

  lemma ActExclusive(e: EnvState, action: int)
    requires InGrid(e.agent.x, e.agent.y) && ItemsExclusive(e) && PlantsOk(e.plants)
    ensures ItemsExclusive(Act(e, action)) && PlantsOk(Act(e, action).plants)
  {
    if action == 5 {
      PickedUpExclusive(e);
    } else if action == 6 {
      PutDownExclusive(e);
    }
  }

  /** Every tick keeps the invariant: the agent stays on the grid, food and
      water stay in [0, 100], health and energy at most 100, every plant's
      stage in [0, 3] and counter in [0, 50], and no item is in two places. */
  lemma TickKeepsConsistent(e: EnvState, action: int)
    requires Consistent(e)
    ensures Consistent(Tick(e, action))
  {
    var d := e.(agent := Drained(e.agent));
    DrainedKeepsStats(e.agent);
    ActKeepsStats(d, action);
    ActExclusive(d, action);
    var acted := Act(d, action);
    PlantsStepOk(acted.plants);
  }

  // ------------------------------------------------ plant growth

  /** A plant after n ticks of growth. */
  function Grown(p: Plant, n: nat): (q: Plant)
    ensures q.uid == p.uid && q.x == p.x && q.y == p.y
    ensures p.Ok() ==> q.Ok() && q.stage >= p.stage
  {
    if n == 0 then p else Grown(p, n - 1).Step()
  }

  /** Up to the period the counter only counts: the stage holds. */
  lemma {:induction false} CounterCounts(p: Plant, n: nat)
    requires p.Ok() && p.counter + n <= GROWTH_PERIOD
    ensures Grown(p, n) == p.(counter := p.counter + n)
  {
    if n > 0 {
      CounterCounts(p, n - 1);
    }
  }

  /** From a fresh counter the stage holds for 50 ticks and advances, capped
      at 3, on the 51st, when the counter restarts. */
  lemma StageAdvancesOn51st(p: Plant)
    requires p.Ok() && p.counter == 0
    ensures forall n: nat | n <= GROWTH_PERIOD :: Grown(p, n).stage == p.stage
    ensures Grown(p, GROWTH_PERIOD + 1)
            == p.(stage := if p.stage < 3 then p.stage + 1 else 3, counter := 0)
  {
    forall n: nat | n <= GROWTH_PERIOD ensures Grown(p, n).stage == p.stage {
      CounterCounts(p, n);
    }
    CounterCounts(p, GROWTH_PERIOD);
  }

  /** Within one tick each plant grows exactly once, after the action. */
  lemma TickStepsEveryPlant(e: EnvState, action: int, i: int)
    requires InGrid(e.agent.x, e.agent.y) && 0 <= i < |e.plants|
    ensures var acted := Act(e.(agent := Drained(e.agent)), action);
            Tick(e, action).plants[i] == acted.plants[i].Step()
  {
  }

  /** Over a tick a plant's stage never goes down, except when this tick's
      pick-up harvests it: then it was ripe, on the agent's cell, and it
      restarts at stage 0. */
  lemma TickStageMonotone(e: EnvState, action: int, i: int)
    requires InGrid(e.agent.x, e.agent.y) && PlantsOk(e.plants) && 0 <= i < |e.plants|
    ensures var q := Tick(e, action).plants[i];
            && q.Ok()
            && (q.stage < e.plants[i].stage ==>
                  && action == 5 && e.plants[i].Ripe() && q.stage == 0
                  && e.plants[i].x == e.agent.x && e.plants[i].y == e.agent.y)
  {
    var d := e.(agent := Drained(e.agent));
    var acted := Act(d, action);
    assert Tick(e, action).plants[i] == acted.plants[i].Step();
    if action == 5 {
      var k := FirstRipeAt(d.plants, d.agent.x, d.agent.y);
      assert acted.plants[i] == e.plants[i] || (i == k && acted.plants[i] == e.plants[i].Harvested());
    }
  }

  // ------------------------------------------------ put-down and pick-up

  /** Putting food down and picking it up again gives it back, at the cost of
      two energy, when nothing else on the cell competes for the hand: not a
      beach, no stone and no other ground food there. */
  lemma PutDownPickUpFood(e: EnvState)
    requires InGrid(e.agent.x, e.agent.y) && ItemsExclusive(e)
    requires e.agent.energy >= 2.0 && e.agent.hand.FoodItem?
    requires !IsBeach(TerrainAt(e.agent.x, e.agent.y))
    requires FirstFoodAt(e.foods, e.agent.x, e.agent.y) == |e.foods|
    requires FirstStoneAt(e.stones, e.agent.x, e.agent.y) == |e.stones|
    ensures var r := PickedUp(PutDown(e));
            && r.agent == e.agent.(energy := e.agent.energy - 2.0)
            && r.foods == e.foods && r.stones == e.stones
  {
    var d := PutDown(e);
    var f := e.agent.hand.food;
    var placed := f.(x := e.agent.x, y := e.agent.y);
    assert d.foods == e.foods + [placed];
    var j := FirstFoodAt(d.foods, e.agent.x, e.agent.y);
    assert d.foods[|e.foods|] == placed;
    assert forall k | 0 <= k < |e.foods| :: d.foods[k] == e.foods[k];
    assert j == |e.foods|;
    assert RemoveAt(d.foods, j) == e.foods;
  }

  /** The same for a carried stone, with no other stone on the cell. A
      ground food on the cell does not compete for the hand but is lost: the
      food search takes it off the ground and the stone search then
      replaces it in the hand. */
  lemma PutDownPickUpStone(e: EnvState)
    requires InGrid(e.agent.x, e.agent.y) && ItemsExclusive(e)
    requires e.agent.energy >= 2.0 && e.agent.hand.StoneItem?
    requires !IsBeach(TerrainAt(e.agent.x, e.agent.y))
    requires FirstStoneAt(e.stones, e.agent.x, e.agent.y) == |e.stones|
    ensures var r := PickedUp(PutDown(e));
            var j := FirstFoodAt(e.foods, e.agent.x, e.agent.y);
            && r.agent == e.agent.(energy := e.agent.energy - 2.0)
            && r.stones == e.stones
            && r.foods == (if j < |e.foods| then RemoveAt(e.foods, j) else e.foods)
  {
    var d := PutDown(e);
    var s := e.agent.hand.stone;
    var placed := s.(x := e.agent.x, y := e.agent.y);
    assert d.stones == e.stones + [placed];
    var k := FirstStoneAt(d.stones, e.agent.x, e.agent.y);
    assert d.stones[|e.stones|] == placed;
    assert forall i | 0 <= i < |e.stones| :: d.stones[i] == e.stones[i];
    assert k == |e.stones|;
    assert RemoveAt(d.stones, k) == e.stones;
  }

  /** The harvest does not stop the search for ground food: with a ripe plant
      and a ground food on the same cell, the plant is reset and a food id is
      spent, but the hand ends up with the ground food and the harvested one
      is nowhere. */
  lemma HarvestLostToGroundFood(e: EnvState, i: nat, j: nat)
    requires InGrid(e.agent.x, e.agent.y) && ItemsExclusive(e)
    requires e.agent.energy >= 1.0 && e.agent.hand == Empty
    requires !IsBeach(TerrainAt(e.agent.x, e.agent.y))
    requires i == FirstRipeAt(e.plants, e.agent.x, e.agent.y) && i < |e.plants|
    requires j == FirstFoodAt(e.foods, e.agent.x, e.agent.y) && j < |e.foods|
    requires FirstStoneAt(e.stones, e.agent.x, e.agent.y) == |e.stones|
    ensures var r := PickedUp(e);
            && r.plants[i].stage == 0 && r.foodId == e.foodId + 1
            && r.agent.hand == FoodItem(e.foods[j].(x := -1, y := -1))
            && r.agent.hand.food.uid != r.foodId
            && NoFoodWithId(r.foods, r.foodId)
  {
  }

  // ------------------------------------------------ stones

  /** No stone ever exists: a reset places none, and only putting down a
      carried stone adds one, so with none on the ground and none in hand a
      tick leaves it so (for a reset see Rules.Initial). */
  lemma TickMakesNoStones(e: EnvState, action: int)
    requires InGrid(e.agent.x, e.agent.y)
    requires e.stones == [] && !e.agent.hand.StoneItem?
    ensures Tick(e, action).stones == [] && !Tick(e, action).agent.hand.StoneItem?
  {
    var d := e.(agent := Drained(e.agent));
    if action == 5 {
      assert FirstStoneAt(d.stones, d.agent.x, d.agent.y) == 0;
    }
  }

  // ------------------------------------------------ scenarios

  /** Right after a reset, moving north enters the grass at (9, 10): two
      energy for the move, one water and one food for the drain. */
  lemma FirstMoveNorth(seeds: seq<PlantSeed>, foodId: int)
    requires ValidSeeds(seeds)
    ensures Tick(Initial(seeds, foodId), 1).agent
            == AgentState(9, 10, 100.0, 98.0, 99.0, 99.0, Empty, 1)
  {
  }
}
