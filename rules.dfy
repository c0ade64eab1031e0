/** The environment's transition rules as functions on values: the agent's
    passive drain and its actions, and one whole tick. The classes in module
    Arkania are proved to perform exactly these updates. */
module Rules {
  import opened Terrain
  import opened Entities
  import opened Sight

  /** Where the agent stands, its four survival stats, its hand and its age. */
  datatype AgentState = AgentState(x: int, y: int, health: real, energy: real,
                                   food: real, water: real, hand: Hand, age: int)

  /** Everything a tick can change: the agent and the entity lists, and the
      counter from which harvested food takes its id. */
  datatype EnvState = EnvState(agent: AgentState, plants: seq<Plant>, foods: seq<Food>,
                               stones: seq<Stone>, foodId: int)

  function Min100(v: real): (r: real)
    ensures r <= 100.0 && (r == v || r == 100.0)
    ensures v <= 100.0 ==> r == v
  {
    if v > 100.0 then 100.0 else v
  }

  /** By how much a stat raised to v goes over 100 (0 if it does not). */
  function Excess(v: real): (r: real)
    ensures r >= 0.0
    ensures v - r <= 100.0
    ensures v > 100.0 ==> v - r == 100.0
  {
    if v > 100.0 then v - 100.0 else 0.0
  }

  // ---------------------------------------------------------------- drain

  /** The passive drain that starts every tick. Energy is first raised to 0
      if negative; water and food each lose 1; each of them that is then
      below 25 costs one more energy; each that has reached 0 is held at 0
      and costs health, 100/80 for water and 25/80 for food. */
  function Drained(s: AgentState): (r: AgentState)
    ensures r.age == s.age + 1
    ensures r.x == s.x && r.y == s.y && r.hand == s.hand
    ensures r.water >= 0.0 && r.food >= 0.0
    ensures r.water == (if s.water - 1.0 <= 0.0 then 0.0 else s.water - 1.0)
    ensures r.food == (if s.food - 1.0 <= 0.0 then 0.0 else s.food - 1.0)
    ensures r.energy == (if s.energy < 0.0 then 0.0 else s.energy)
                        - (if s.water - 1.0 < 25.0 then 1.0 else 0.0)
                        - (if s.food - 1.0 < 25.0 then 1.0 else 0.0)
    ensures r.health == s.health - (if s.water - 1.0 <= 0.0 then 1.25 else 0.0)
                                 - (if s.food - 1.0 <= 0.0 then 0.3125 else 0.0)
  {
    var energy0 := if s.energy < 0.0 then 0.0 else s.energy;
    var water1 := s.water - 1.0;
    var food1 := s.food - 1.0;
    var energy1 := if water1 < 25.0 then energy0 - 1.0 else energy0;
    var water2 := if water1 <= 0.0 then 0.0 else water1;
    var health1 := if water1 <= 0.0 then s.health - 100.0 / 80.0 else s.health;
    var energy2 := if food1 < 25.0 then energy1 - 1.0 else energy1;
    var food2 := if food1 <= 0.0 then 0.0 else food1;
    var health2 := if food1 <= 0.0 then health1 - 25.0 / 80.0 else health1;
    AgentState(s.x, s.y, health2, energy2, food2, water2, s.hand, s.age + 1)
  }

  // ---------------------------------------------------------------- moves

  datatype Direction = North | East | South | West

  /** The agent stands on the grid's edge in direction d. */
  predicate AtEdge(x: int, y: int, d: Direction) {
    match d
    case North => y == 17
    case East => x == 17
    case South => y == 0
    case West => x == 0
  }

  /** The neighbouring cell in direction d; north is +y. */
  function Ahead(x: int, y: int, d: Direction): (cell: (int, int))
    ensures (cell.0 - x) + (cell.1 - y) == 1 || (cell.0 - x) + (cell.1 - y) == -1
    ensures cell.0 == x || cell.1 == y
  {
    match d
    case North => (x, y + 1)
    case East => (x + 1, y)
    case South => (x, y - 1)
    case West => (x - 1, y)
  }

  /** A move in direction d. Without 2 energy nothing happens. Otherwise the
      move costs 2 energy; at the grid's edge the agent dies where it stands;
      a rock ahead blocks it; any other cell is entered, and entering forest
      or water kills it. */
  function Moved(s: AgentState, d: Direction): (r: AgentState)
    requires InGrid(s.x, s.y)
    ensures InGrid(r.x, r.y)
    ensures s.energy < 2.0 ==> r == s
    ensures s.energy >= 2.0 ==> r.energy == s.energy - 2.0
    ensures r.food == s.food && r.water == s.water && r.hand == s.hand && r.age == s.age
    ensures s.energy >= 2.0 && AtEdge(s.x, s.y, d) ==>
              r.x == s.x && r.y == s.y && r.health == 0.0
    ensures s.energy >= 2.0 && !AtEdge(s.x, s.y, d) ==>
              var (tx, ty) := Ahead(s.x, s.y, d);
              && InGrid(tx, ty)
              && ((r.x, r.y) == (tx, ty) <==> TerrainAt(tx, ty) != ROCK)
              && ((r.x, r.y) == (s.x, s.y) <==> TerrainAt(tx, ty) == ROCK)
              && (r.health == 0.0 || r.health == s.health)
              && (TerrainAt(tx, ty) == FOREST || TerrainAt(tx, ty) == WATER ==> r.health == 0.0)
              && (TerrainAt(tx, ty) != FOREST && TerrainAt(tx, ty) != WATER ==> r.health == s.health)
  {
    if s.energy < 2.0 then s
    else
      var s1 := s.(energy := s.energy - 2.0);
      if AtEdge(s.x, s.y, d) then s1.(health := 0.0)
      else
        var (tx, ty) := Ahead(s.x, s.y, d);
        var ahead := TerrainAt(tx, ty);
        var s2 := if ahead != ROCK then s1.(x := tx, y := ty) else s1;
        if ahead == FOREST || ahead == WATER then s2.(health := 0.0) else s2
  }

  // ---------------------------------------------------------------- rest

  /** Resting: food and water gain 0.5; if both are then at least 25 health
      gains 1 and energy 3, otherwise energy gains 2; health and energy are
      then capped at 100. */
  function Rested(s: AgentState): (r: AgentState)
    ensures r.food == s.food + 0.5 && r.water == s.water + 0.5
    ensures r.x == s.x && r.y == s.y && r.hand == s.hand && r.age == s.age
    ensures r.health <= 100.0 && r.energy <= 100.0
    ensures s.food + 0.5 >= 25.0 && s.water + 0.5 >= 25.0 ==>
              r.health == Min100(s.health + 1.0) && r.energy == Min100(s.energy + 3.0)
    ensures !(s.food + 0.5 >= 25.0 && s.water + 0.5 >= 25.0) ==>
              r.health == Min100(s.health) && r.energy == Min100(s.energy + 2.0)
  {
    var food := s.food + 0.5;
    var water := s.water + 0.5;
    var fed := food >= 25.0 && water >= 25.0;
    var health := if fed then s.health + 1.0 else s.health + 0.0;
    var energy := if fed then s.energy + 3.0 else s.energy + 2.0;
    s.(food := food, water := water,
       health := if health > 100.0 then 100.0 else health,
       energy := if energy > 100.0 then 100.0 else energy)
  }

  // ---------------------------------------------------------------- consume

  /** Consuming what is in hand, at no energy cost. Water gives 20 water and
      food 35 food; the stat is capped at 100, and health and energy each lose
      half of what went over. A stone costs 45 health and 45 energy. */
  function Consumed(s: AgentState): (r: AgentState)
    ensures r.hand == Empty
    ensures r.x == s.x && r.y == s.y && r.age == s.age
    ensures s.hand == Empty ==> r == s
    ensures s.hand == Water ==>
              && r.water == s.water + 20.0 - Excess(s.water + 20.0) && r.food == s.food
              && r.health == s.health - Excess(s.water + 20.0) / 2.0
              && r.energy == s.energy - Excess(s.water + 20.0) / 2.0
    ensures s.hand.FoodItem? ==>
              && r.food == s.food + 35.0 - Excess(s.food + 35.0) && r.water == s.water
              && r.health == s.health - Excess(s.food + 35.0) / 2.0
              && r.energy == s.energy - Excess(s.food + 35.0) / 2.0
    ensures s.hand.StoneItem? ==>
              && r.food == s.food && r.water == s.water
              && r.health == s.health - 45.0 && r.energy == s.energy - 45.0
    ensures s.water <= 100.0 ==> r.water <= 100.0
    ensures s.food <= 100.0 ==> r.food <= 100.0
  {
    match s.hand
    case Empty => s
    case Water =>
      var water := s.water + 20.0;
      if water > 100.0 then
        s.(hand := Empty, health := s.health - (water - 100.0) / 2.0,
           energy := s.energy - (water - 100.0) / 2.0, water := 100.0)
      else s.(hand := Empty, water := water)
    case FoodItem(_) =>
      var food := s.food + 35.0;
      if food > 100.0 then
        s.(hand := Empty, health := s.health - (food - 100.0) / 2.0,
           energy := s.energy - (food - 100.0) / 2.0, food := 100.0)
      else s.(hand := Empty, food := food)
    case StoneItem(_) =>
      s.(health := s.health - 45.0, energy := s.energy - 45.0, hand := Empty)
  }

  // ---------------------------------------------------------------- searches

  /** The index of the first ripe plant at (x, y), or |ps| if there is none. */
  function FirstRipeAt(ps: seq<Plant>, x: int, y: int): (i: nat)
    ensures i <= |ps|
    ensures i < |ps| ==> ps[i].x == x && ps[i].y == y && ps[i].Ripe()
    ensures forall k | 0 <= k < i :: !(ps[k].x == x && ps[k].y == y && ps[k].Ripe())
  {
    if |ps| == 0 then 0
    else if ps[0].x == x && ps[0].y == y && ps[0].Ripe() then 0
    else 1 + FirstRipeAt(ps[1..], x, y)
  }

  /** The index of the first food at (x, y), or |fs| if there is none. */
  function FirstFoodAt(fs: seq<Food>, x: int, y: int): (i: nat)
    ensures i <= |fs|
    ensures i < |fs| ==> fs[i].x == x && fs[i].y == y
    ensures forall k | 0 <= k < i :: !(fs[k].x == x && fs[k].y == y)
  {
    if |fs| == 0 then 0
    else if fs[0].x == x && fs[0].y == y then 0
    else 1 + FirstFoodAt(fs[1..], x, y)
  }

  /** The index of the first stone at (x, y), or |ss| if there is none. */
  function FirstStoneAt(ss: seq<Stone>, x: int, y: int): (i: nat)
    ensures i <= |ss|
    ensures i < |ss| ==> ss[i].x == x && ss[i].y == y
    ensures forall k | 0 <= k < i :: !(ss[k].x == x && ss[k].y == y)
  {
    if |ss| == 0 then 0
    else if ss[0].x == x && ss[0].y == y then 0
    else 1 + FirstStoneAt(ss[1..], x, y)
  }

  function RemoveAt<T>(s: seq<T>, i: nat): (r: seq<T>)
    requires i < |s|
    ensures |r| == |s| - 1
    ensures forall k | 0 <= k < i :: r[k] == s[k]
    ensures forall k | i <= k < |r| :: r[k] == s[k + 1]
    ensures multiset(r) + multiset{s[i]} == multiset(s)
  {
    assert s == s[..i] + [s[i]] + s[i + 1..];
    s[..i] + s[i + 1..]
  }

  // ---------------------------------------------------------------- pick-up

  /** The harvest loop of pick-up: the first ripe plant at the agent's cell,
      if any, is reset and the hand gets a newly minted food item. */
  function Harvest(e: EnvState): (r: EnvState)
    ensures var i := FirstRipeAt(e.plants, e.agent.x, e.agent.y);
            && r.foods == e.foods && r.stones == e.stones && |r.plants| == |e.plants|
            && r.agent == e.agent.(hand := r.agent.hand)
            && (i == |e.plants| ==> r == e)
            && (i < |e.plants| ==>
                  && r.foodId == e.foodId + 1 && r.agent.hand == FoodItem(Food(r.foodId, -1, -1))
                  && r.plants[i] == e.plants[i].Harvested() && e.plants[i].Ripe()
                  && forall k | 0 <= k < |e.plants| && k != i :: r.plants[k] == e.plants[k])
  {
    var i := FirstRipeAt(e.plants, e.agent.x, e.agent.y);
    if i == |e.plants| then e
    else
      e.(foodId := e.foodId + 1,
         agent := e.agent.(hand := FoodItem(Food(e.foodId + 1, -1, -1))),
         plants := e.plants[i := e.plants[i].Harvested()])
  }

  /** The ground-food loop of pick-up: the first food at the agent's cell,
      if any, leaves the list and replaces whatever the hand holds. */
  function TakeFood(e: EnvState): (r: EnvState)
    ensures var j := FirstFoodAt(e.foods, e.agent.x, e.agent.y);
            && r.plants == e.plants && r.stones == e.stones && r.foodId == e.foodId
            && r.agent == e.agent.(hand := r.agent.hand)
            && (j == |e.foods| ==> r == e)
            && (j < |e.foods| ==>
                  && r.agent.hand == FoodItem(e.foods[j].(x := -1, y := -1))
                  && multiset(r.foods) + multiset{e.foods[j]} == multiset(e.foods)
                  && e.foods[j].x == e.agent.x && e.foods[j].y == e.agent.y)
  {
    var j := FirstFoodAt(e.foods, e.agent.x, e.agent.y);
    if j == |e.foods| then e
    else
      e.(agent := e.agent.(hand := FoodItem(e.foods[j].(x := -1, y := -1))),
         foods := RemoveAt(e.foods, j))
  }

  /** The ground-stone loop of pick-up, like TakeFood. */
  function TakeStone(e: EnvState): (r: EnvState)
    ensures var k := FirstStoneAt(e.stones, e.agent.x, e.agent.y);
            && r.plants == e.plants && r.foods == e.foods && r.foodId == e.foodId
            && r.agent == e.agent.(hand := r.agent.hand)
            && (k == |e.stones| ==> r == e)
            && (k < |e.stones| ==>
                  && r.agent.hand == StoneItem(e.stones[k].(x := -1, y := -1))
                  && multiset(r.stones) + multiset{e.stones[k]} == multiset(e.stones)
                  && e.stones[k].x == e.agent.x && e.stones[k].y == e.agent.y)
  {
    var k := FirstStoneAt(e.stones, e.agent.x, e.agent.y);
    if k == |e.stones| then e
    else
      e.(agent := e.agent.(hand := StoneItem(e.stones[k].(x := -1, y := -1))),
         stones := RemoveAt(e.stones, k))
  }

  /** Pick-up. With at least 1 energy it costs 1 energy; with an empty hand
      it then harvests a ripe plant on the cell, and either takes water (on a
      beach) or takes a ground food and then a ground stone from the cell.
      The harvest does not stop the later searches, so each later find
      replaces the hand. */
  function PickedUp(e: EnvState): (r: EnvState)
    requires InGrid(e.agent.x, e.agent.y)
    ensures r.agent == e.agent.(energy := r.agent.energy, hand := r.agent.hand)
    ensures |r.plants| == |e.plants|
    ensures e.agent.energy < 1.0 ==> r == e
    ensures e.agent.energy >= 1.0 ==> r.agent.energy == e.agent.energy - 1.0
    ensures e.agent.energy >= 1.0 && e.agent.hand != Empty ==>
              r == e.(agent := e.agent.(energy := e.agent.energy - 1.0))
    ensures e.agent.energy >= 1.0 && e.agent.hand == Empty ==>
              var (x, y) := (e.agent.x, e.agent.y);
              var i := FirstRipeAt(e.plants, x, y);
              var j := FirstFoodAt(e.foods, x, y);
              var k := FirstStoneAt(e.stones, x, y);
              && r.plants == (if i < |e.plants| then e.plants[i := e.plants[i].Harvested()] else e.plants)
              && r.foodId == (if i < |e.plants| then e.foodId + 1 else e.foodId)
              && (IsBeach(TerrainAt(x, y)) ==>
                    r.agent.hand == Water && r.foods == e.foods && r.stones == e.stones)
              && (!IsBeach(TerrainAt(x, y)) ==>
                    && r.foods == (if j < |e.foods| then RemoveAt(e.foods, j) else e.foods)
                    && r.stones == (if k < |e.stones| then RemoveAt(e.stones, k) else e.stones)
                    && r.agent.hand == (if k < |e.stones| then StoneItem(e.stones[k].(x := -1, y := -1))
                                        else if j < |e.foods| then FoodItem(e.foods[j].(x := -1, y := -1))
                                        else if i < |e.plants| then FoodItem(Food(e.foodId + 1, -1, -1))
                                        else Empty))
  {
    if e.agent.energy < 1.0 then e
    else
      var e1 := e.(agent := e.agent.(energy := e.agent.energy - 1.0));
      if e1.agent.hand != Empty then e1
      else
        var e2 := Harvest(e1);
        if IsBeach(TerrainAt(e2.agent.x, e2.agent.y)) then e2.(agent := e2.agent.(hand := Water))
        else TakeStone(TakeFood(e2))
  }

  // ---------------------------------------------------------------- put-down

  /** Put-down. With at least 1 energy it costs 1 energy; a carried stone or
      food is placed on the agent's cell at the end of its list, carried water
      is dropped, and the hand is empty afterwards. */
  function PutDown(e: EnvState): (r: EnvState)
    ensures r.plants == e.plants && r.foodId == e.foodId
    ensures e.agent.energy < 1.0 ==> r == e
    ensures e.agent.energy >= 1.0 ==>
              r.agent == e.agent.(energy := e.agent.energy - 1.0, hand := Empty)
    ensures e.agent.energy >= 1.0 && e.agent.hand.FoodItem? ==>
              && r.foods == e.foods + [e.agent.hand.food.(x := e.agent.x, y := e.agent.y)]
              && r.stones == e.stones
    ensures e.agent.energy >= 1.0 && e.agent.hand.StoneItem? ==>
              && r.stones == e.stones + [e.agent.hand.stone.(x := e.agent.x, y := e.agent.y)]
              && r.foods == e.foods
    ensures e.agent.hand == Empty || e.agent.hand == Water ==>
              r.foods == e.foods && r.stones == e.stones
  {
    if e.agent.energy < 1.0 then e
    else
      var a := e.agent.(energy := e.agent.energy - 1.0);
      match a.hand
      case Empty => e.(agent := a)
      case StoneItem(s) =>
        e.(agent := a.(hand := Empty), stones := e.stones + [s.(x := a.x, y := a.y)])
      case FoodItem(f) =>
        e.(agent := a.(hand := Empty), foods := e.foods + [f.(x := a.x, y := a.y)])
      case Water => e.(agent := a.(hand := Empty))
  }

  // ---------------------------------------------------------------- tick

  /** The action dispatch of a tick. 0 rests, 1-4 move north, east, south and
      west, 5 picks up, 6 puts down, 7 consumes; the throws 8-11 do nothing,
      and neither does any other code. */
  function Act(e: EnvState, action: int): (r: EnvState)
    requires InGrid(e.agent.x, e.agent.y)
    ensures !(0 <= action <= 7) ==> r == e
    ensures InGrid(r.agent.x, r.agent.y)
    ensures |r.plants| == |e.plants|
    ensures action != 5 ==> r.plants == e.plants && r.foodId == e.foodId
    ensures action != 5 && action != 6 ==> r.foods == e.foods && r.stones == e.stones
    ensures r.agent.age == e.agent.age
  {
    if action == 0 then e.(agent := Rested(e.agent))
    else if action == 1 then e.(agent := Moved(e.agent, North))
    else if action == 2 then e.(agent := Moved(e.agent, East))
    else if action == 3 then e.(agent := Moved(e.agent, South))
    else if action == 4 then e.(agent := Moved(e.agent, West))
    else if action == 5 then PickedUp(e)
    else if action == 6 then PutDown(e)
    else if action == 7 then e.(agent := Consumed(e.agent))
    else e
  }

  function StepPlants(ps: seq<Plant>): (r: seq<Plant>)
    ensures |r| == |ps|
    ensures forall i | 0 <= i < |ps| :: r[i] == ps[i].Step()
    ensures forall i | 0 <= i < |ps| :: r[i].uid == ps[i].uid && r[i].x == ps[i].x && r[i].y == ps[i].y
    ensures forall i | 0 <= i < |ps| && ps[i].Ok() :: r[i].Ok() && r[i].stage >= ps[i].stage
  {
    seq(|ps|, i requires 0 <= i < |ps| => ps[i].Step())
  }

  /** One tick: drain, then the chosen action, then every plant grows once.
      Stones and ground food have no behaviour of their own. */
  function Tick(e: EnvState, action: int): (r: EnvState)
    requires InGrid(e.agent.x, e.agent.y)
    ensures InGrid(r.agent.x, r.agent.y)
    ensures r.agent.age == e.agent.age + 1
    ensures |r.plants| == |e.plants|
  {
    var acted := Act(e.(agent := Drained(e.agent)), action);
    acted.(plants := StepPlants(acted.plants))
  }

  // ---------------------------------------------------------------- observation

  /** What a tick reports: the four stats, the hand code and the sight matrix. */
  datatype Observation = Observation(health: real, energy: real, food: real, water: real,
                                     inHand: int, sight: Matrix)

  function Observe(e: EnvState): (o: Observation)
    ensures o.health == e.agent.health && o.energy == e.agent.energy
    ensures o.food == e.agent.food && o.water == e.agent.water
    ensures o.inHand == InHandCode(e.agent.hand)
    ensures o.sight == SightMatrix(e.agent.x, e.agent.y, e.plants, e.foods, e.stones)
  {
    Observation(e.agent.health, e.agent.energy, e.agent.food, e.agent.water,
                InHandCode(e.agent.hand), SightMatrix(e.agent.x, e.agent.y, e.plants, e.foods, e.stones))
  }

  // ---------------------------------------------------------------- reset

  /** Where and at which stage one of the twelve plants starts; in the
      environment these are drawn at random. */
  datatype PlantSeed = PlantSeed(x: int, y: int, stage: int)

  const PLANT_COUNT := 12

  /** Twelve distinct cells in columns 1-16 and rows 4-15, stages 0-3: what
      the environment's rejection sampling produces. */
  predicate ValidSeeds(seeds: seq<PlantSeed>) {
    && |seeds| == PLANT_COUNT
    && (forall i | 0 <= i < |seeds| ::
          1 <= seeds[i].x <= 16 && 4 <= seeds[i].y <= 15 && 0 <= seeds[i].stage <= 3)
    && (forall i, j | 0 <= i < j < |seeds| :: (seeds[i].x, seeds[i].y) != (seeds[j].x, seeds[j].y))
  }

  function SeededPlants(seeds: seq<PlantSeed>): (ps: seq<Plant>)
    ensures |ps| == |seeds|
    ensures forall i | 0 <= i < |ps| ::
              ps[i] == Plant(i, seeds[i].x, seeds[i].y, seeds[i].stage, 0)
  {
    seq(|seeds|, i requires 0 <= i < |seeds| => Plant(i, seeds[i].x, seeds[i].y, seeds[i].stage, 0))
  }

  /** The state after a reset: the agent at (9, 9) with every stat at 100, an
      empty hand and age 0; the seeded plants; no food or stones on the
      ground. The food id counter is not reset. */
  function Initial(seeds: seq<PlantSeed>, foodId: int): (e: EnvState)
    ensures e.agent.x == 9 && e.agent.y == 9 && e.agent.hand == Empty && e.agent.age == 0
    ensures e.agent.health == 100.0 && e.agent.energy == 100.0
    ensures e.agent.food == 100.0 && e.agent.water == 100.0
    ensures |e.plants| == |seeds| && e.foods == [] && e.stones == [] && e.foodId == foodId
    ensures forall i | 0 <= i < |e.plants| ::
              e.plants[i] == Plant(i, seeds[i].x, seeds[i].y, seeds[i].stage, 0)
    ensures ValidSeeds(seeds) ==>
              forall i | 0 <= i < |e.plants| :: e.plants[i].Ok() && e.plants[i].uid == i && e.plants[i].counter == 0
  {
    EnvState(AgentState(9, 9, 100.0, 100.0, 100.0, 100.0, Empty, 0),
             SeededPlants(seeds), [], [], foodId)
  }
}
