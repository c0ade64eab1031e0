/** The environment's entities: plants, ground food, stones, and the
    agent's one-item hand. */
module Entities {

  /** Number of increments a plant's counter takes to stay at a stage: the
      stage advances on the increment that takes the counter past it. */
  const GROWTH_PERIOD := 50

  /** A plant at a fixed cell, growing through stages 0 to 3; stage 3 can be harvested. */
  datatype Plant = Plant(uid: int, x: int, y: int, stage: int, counter: int) {

    predicate Ok() {
      0 <= stage <= 3 && 0 <= counter <= GROWTH_PERIOD
    }

    predicate Ripe() {
      stage == 3
    }

    /** One tick of growth: the counter increments, and once it passes the
        period it restarts at 0 and the stage advances, capped at 3. */
    function Step(): (q: Plant)
      ensures q.uid == uid && q.x == x && q.y == y
      ensures Ok() ==> q.Ok()
      ensures stage <= 3 ==> q.stage >= stage
      ensures Ok() ==> (q.stage > stage <==> counter == GROWTH_PERIOD && stage < 3)
      ensures Ok() ==> q.counter == (if counter == GROWTH_PERIOD then 0 else counter + 1)
    {
      var c := counter + 1;
      if c > GROWTH_PERIOD then this.(counter := 0, stage := if 3 < stage + 1 then 3 else stage + 1)
      else this.(counter := c)
    }

    /** The plant's own reset after picking: stage 0, counter untouched. */
    function Picked(): (q: Plant)
      ensures q.stage == 0
      ensures q.(stage := stage) == this
    {
      this.(stage := 0)
    }

    /** The reset pick-up performs on a harvested plant: stage and counter both 0. */
    function Harvested(): (q: Plant)
      ensures q.Ok() && q.stage == 0 && q.counter == 0
      ensures q.uid == uid && q.x == x && q.y == y
    {
      this.(stage := 0, counter := 0)
    }
  }

  /** A food item; off the grid, (-1, -1), while it is carried. */
  datatype Food = Food(uid: int, x: int, y: int)

  /** A stone; off the grid, (-1, -1), while it is carried. */
  datatype Stone = Stone(uid: int, x: int, y: int)

  /** What the agent carries: nothing, water, one food item or one stone. */
  datatype Hand = Empty | Water | FoodItem(food: Food) | StoneItem(stone: Stone)

  /** The hand as the observation reports it: 0 nothing, 1 food, 2 water, 3 stone. */
  function InHandCode(h: Hand): (code: int)
    ensures 0 <= code <= 3
    ensures code == 0 <==> h.Empty?
    ensures code == 1 <==> h.FoodItem?
    ensures code == 2 <==> h.Water?
    ensures code == 3 <==> h.StoneItem?
  {
    match h
    case Water => 2
    case FoodItem(_) => 1
    case StoneItem(_) => 3
    case Empty => 0
  }
}
