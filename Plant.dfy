/** The shared plant of src/components/SharedPlant.tsx: a water level that
    drains on every tick, a health that follows it, watering at most once
    until the delayed reset, and a five-stage reading of the health.

    Both quantities move in steps of 0.5 between 0 and 100; here they are
    integers counted in half-units, so 0..200 stands for 0..100. */
module Plant {
  import opened Wrappers

  /** 100, in half-units. */
  const Full := 200

  function Min(a: int, b: int): int { if a <= b then a else b }
  function Max(a: int, b: int): int { if a >= b then a else b }

  // ---------------------------------------------------------------------
  // Stages

  datatype Stage = Blooming | Healthy | Growing | Struggling | Wilting

  /** `getPlantStage`: thresholds 80, 60, 40 and 20 on the health. */
  function StageOf(health: int): Stage {
    if health >= 160 then Blooming
    else if health >= 120 then Healthy
    else if health >= 80 then Growing
    else if health >= 40 then Struggling
    else Wilting
  }

  /** Stages from worst (0) to best (4). */
  function Rank(s: Stage): nat {
    match s
    case Wilting => 0
    case Struggling => 1
    case Growing => 2
    case Healthy => 3
    case Blooming => 4
  }

  /** The stage is the health's band of 20 points, capped at the top band. */
  lemma StageIsHealthBand(health: int)
    requires 0 <= health <= Full
    ensures Rank(StageOf(health)) == Min(4, health / 40)
  {
  }

  /** More health never gives a worse stage. */
  lemma StageMonotone(h1: int, h2: int)
    requires h1 <= h2
    ensures Rank(StageOf(h1)) <= Rank(StageOf(h2))
  {
  }

  /** `getPlantEmoji`. The switch covers every stage, so its default branch
      cannot be taken. */
  function Emoji(s: Stage): string {
    match s
    case Blooming => "\U{1F338}"
    case Healthy => "\U{1F33F}"
    case Growing => "\U{1F331}"
    case Struggling => "\U{1F940}"
    case Wilting => "\U{1F494}"
  }

  /** `getPlantMessage`; as for the emoji, every stage has its own case. */
  function Message(s: Stage): string {
    match s
    case Blooming => "Your plant is flourishing with love from both of you!"
    case Healthy => "Your plant is thriving thanks to your shared care"
    case Growing => "Your plant is growing steadily with your attention"
    case Struggling => "Your plant needs more consistent care from both of you"
    case Wilting => "Your plant is suffering from neglect - show it some love!"
  }

  /** Reads the stage back from an emoji. */
  function StageOfEmoji(e: string): Option<Stage> {
    if e == Emoji(Blooming) then Some(Blooming)
    else if e == Emoji(Healthy) then Some(Healthy)
    else if e == Emoji(Growing) then Some(Growing)
    else if e == Emoji(Struggling) then Some(Struggling)
    else if e == Emoji(Wilting) then Some(Wilting)
    else None
  }

  /** Reads the stage back from a message. */
  function StageOfMessage(m: string): Option<Stage> {
    if m == Message(Blooming) then Some(Blooming)
    else if m == Message(Healthy) then Some(Healthy)
    else if m == Message(Growing) then Some(Growing)
    else if m == Message(Struggling) then Some(Struggling)
    else if m == Message(Wilting) then Some(Wilting)
    else None
  }

  /** Each stage has its own emoji: the emoji tells the stage. */
  lemma EmojiTellsStage(s: Stage)
    ensures StageOfEmoji(Emoji(s)) == Some(s)
  {
    var e := Emoji(s);
    assert e[0] != Emoji(Blooming)[0] ==> e != Emoji(Blooming);
    assert e[0] != Emoji(Healthy)[0] ==> e != Emoji(Healthy);
    assert e[0] != Emoji(Growing)[0] ==> e != Emoji(Growing);
    assert e[0] != Emoji(Struggling)[0] ==> e != Emoji(Struggling);
  }

  /** Each stage has its own message: the message tells the stage. */
  lemma MessageTellsStage(s: Stage)
    ensures StageOfMessage(Message(s)) == Some(s)
  {
    var m := Message(s);
    assert |m| != |Message(Blooming)| ==> m != Message(Blooming);
    assert |m| != |Message(Healthy)| ==> m != Message(Healthy);
    assert |m| != |Message(Growing)| ==> m != Message(Growing);
    assert |m| != |Message(Struggling)| ==> m != Message(Struggling);
  }

  // ---------------------------------------------------------------------
  // The simulation

  datatype PlantState = PlantState(water: int, health: int, wateredToday: bool)

  /** Health 75 and water 60, not yet watered. */
  const Initial := PlantState(120, 150, false)

  predicate InRange(s: PlantState) {
    0 <= s.water <= Full && 0 <= s.health <= Full
  }

  /** The interval tick: the water drops by 0.5, floored at 0; the health,
      judged by the water level from before this tick, drops by 1 below 20,
      rises by 0.5 above 80 (capped at 100), and otherwise stays. */
  function Tick(s: PlantState): PlantState {
    s.(water := Max(0, s.water - 1),
       health := if s.water < 40 then Max(0, s.health - 2)
                 else if s.water > 160 then Min(Full, s.health + 1)
                 else s.health)
  }

  /** `waterPlant`: nothing once watered; otherwise the water rises by 25,
      capped at 100, and the plant counts as watered. */
  function Water(s: PlantState): PlantState {
    if s.wateredToday then s
    else s.(water := Min(Full, s.water + 50), wateredToday := true)
  }

  /** The delayed reset after a watering. */
  function Reset(s: PlantState): PlantState {
    s.(wateredToday := false)
  }

  datatype Event = TickEvent | WaterEvent | ResetEvent

  function Step(s: PlantState, e: Event): PlantState {
    match e
    case TickEvent => Tick(s)
    case WaterEvent => Water(s)
    case ResetEvent => Reset(s)
  }

  /** The state after the events, in order. */
  function Run(s: PlantState, es: seq<Event>): PlantState
    decreases |es|
  {
    if es == [] then s else Run(Step(s, es[0]), es[1..])
  }

  function Ticks(n: nat): (es: seq<Event>)
    ensures |es| == n && forall i :: 0 <= i < n ==> es[i] == TickEvent
  {
    if n == 0 then [] else [TickEvent] + Ticks(n - 1)
  }

  /** Every step keeps both quantities between 0 and 100. */
  lemma StepKeepsRange(s: PlantState, e: Event)
    requires InRange(s)
    ensures InRange(Step(s, e))
  {
  }

  /** Any run from a state in range stays in range. */
  lemma {:induction false} RunKeepsRange(s: PlantState, es: seq<Event>)
    requires InRange(s)
    ensures InRange(Run(s, es))
    decreases |es|
  {
    if es != [] {
      StepKeepsRange(s, es[0]);
      RunKeepsRange(Step(s, es[0]), es[1..]);
    }
  }

  /** From the initial 75/60, every sequence of ticks, waterings and resets
      keeps water and health within 0..100. */
  lemma ReachableStatesInRange(es: seq<Event>)
    ensures InRange(Run(Initial, es))
  {
    RunKeepsRange(Initial, es);
  }

  /** A second watering before the reset changes nothing. */
  lemma WateringOncePerDay(s: PlantState)
    ensures Water(s).wateredToday
    ensures Water(Water(s)) == Water(s)
  {
  }

  /** Watering never lowers the water and never touches the health. */
  lemma WateringOnlyAddsWater(s: PlantState)
    requires InRange(s)
    ensures Water(s).health == s.health && Water(s).water >= s.water
  {
  }

  /** With no watering, n ticks drain the water by 0.5 each, down to 0. */
  lemma {:induction false} TicksDrain(s: PlantState, n: nat)
    requires InRange(s)
    ensures Run(s, Ticks(n)).water == Max(0, s.water - n)
    ensures Run(s, Ticks(n)).wateredToday == s.wateredToday
    decreases n
  {
    if n > 0 {
      var es := Ticks(n);
      assert es[0] == TickEvent && es[1..] == Ticks(n - 1);
      assert Run(s, es) == Run(Tick(s), Ticks(n - 1));
      StepKeepsRange(s, TickEvent);
      TicksDrain(Tick(s), n - 1);
    }
  }

  /** With no watering, the health never rises once the water is at 80 or
      below. */
  lemma {:induction false} DryPlantNeverRecovers(s: PlantState, n: nat)
    requires InRange(s) && s.water <= 160
    ensures Run(s, Ticks(n)).health <= s.health
    decreases n
  {
    if n > 0 {
      var es := Ticks(n);
      assert es[0] == TickEvent && es[1..] == Ticks(n - 1);
      assert Run(s, es) == Run(Tick(s), Ticks(n - 1));
      StepKeepsRange(s, TickEvent);
      DryPlantNeverRecovers(Tick(s), n - 1);
    }
  }

  // ---------------------------------------------------------------------
  // The component

  /** The component's state. `lastWatered` is a clock reading in
      milliseconds; `pendingResets` counts the reset timers that a watering
      has started and that have not fired yet. */
  class SharedPlant {
    var waterLevel: int
    var plantHealth: int
    var hasWateredToday: bool
    var lastWatered: int
    var pendingResets: nat

    function State(): PlantState
      reads this
    {
      PlantState(waterLevel, plantHealth, hasWateredToday)
    }

    ghost predicate Valid()
      reads this
    {
      InRange(State())
    }

    /** Mounted at time `now`: health 75, water 60, last watered twelve
        hours earlier. */
    constructor (now: int)
      ensures Valid() && State() == Initial
      ensures lastWatered == now - 43200000 && pendingResets == 0
    {
      waterLevel := 120;
      plantHealth := 150;
      hasWateredToday := false;
      lastWatered := now - 43200000;
      pendingResets := 0;
    }

    /** One run of the 30-second interval. */
    method TickInterval()
      requires Valid()
      modifies this
      ensures Valid() && State() == Tick(old(State()))
      ensures lastWatered == old(lastWatered) && pendingResets == old(pendingResets)
    {
      var before := waterLevel;
      waterLevel := Max(0, waterLevel - 1);
      if before < 40 {
        plantHealth := Max(0, plantHealth - 2);
      } else if before > 160 {
        plantHealth := Min(Full, plantHealth + 1);
      }
      StepKeepsRange(old(State()), TickEvent);
    }

    /** The Water button at time `now`. When already watered it changes
        nothing; otherwise it waters, records the time and starts the reset
        timer. */
    method WaterPlant(now: int) returns (watered: bool)
      requires Valid()
      modifies this
      ensures Valid() && State() == Water(old(State()))
      ensures watered == !old(hasWateredToday)
      ensures lastWatered == (if watered then now else old(lastWatered))
      ensures pendingResets == (if watered then old(pendingResets) + 1 else old(pendingResets))
    {
      if hasWateredToday {
        return false;
      }
      waterLevel := Min(Full, waterLevel + 50);
      lastWatered := now;
      hasWateredToday := true;
      pendingResets := pendingResets + 1;
      watered := true;
    }

    /** A reset timer fires: only the watered flag is cleared. */
    method ResetFires()
      requires Valid() && pendingResets > 0
      modifies this
      ensures Valid() && State() == Reset(old(State()))
      ensures waterLevel == old(waterLevel) && plantHealth == old(plantHealth)
      ensures lastWatered == old(lastWatered) && pendingResets == old(pendingResets) - 1
    {
      hasWateredToday := false;
      pendingResets := pendingResets - 1;
    }

    /** What the plant card shows: the stage's emoji and message. */
    method Appearance() returns (emoji: string, message: string)
      requires Valid()
      ensures emoji == Emoji(StageOf(plantHealth)) && message == Message(StageOf(plantHealth))
      ensures StageOfEmoji(emoji) == StageOfMessage(message) == Some(StageOf(plantHealth))
    {
      var stage := StageOf(plantHealth);
      emoji, message := Emoji(stage), Message(stage);
      EmojiTellsStage(stage);
      MessageTellsStage(stage);
    }
  }
}
