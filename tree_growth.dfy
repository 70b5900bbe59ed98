/**
 * The tree on the session summary (components/summary/TreeGrowthAnimation.tsx): a level for
 * every five hours of focus, the progress towards the next level, the stage names, and the
 * 60-step animation of the hour counter from its old to its new value. Hours are exact reals.
 */
module TreeGrowth {
  import JsNumber

  const HOURS_PER_LEVEL: real := 5.0
  const STEPS: nat := 60

  /** `Math.floor(hours / 5) + 1`. */
  function Level(hours: real): (l: int)
    ensures 5.0 * (l - 1) as real <= hours < 5.0 * l as real
    ensures hours >= 0.0 ==> l >= 1
  {
    JsNumber.Floor(hours / 5.0) + 1
  }

  lemma LevelMonotone(a: real, b: real)
    requires a <= b
    ensures Level(a) <= Level(b)
  {
  }

  /** `levelAfter > levelBefore`: exactly when the old total is below the threshold of the new level. */
  predicate IsLevelUp(hoursBefore: real, hoursAfter: real): (up: bool)
    ensures up <==> hoursBefore < 5.0 * (Level(hoursAfter) - 1) as real
  {
    Level(hoursAfter) > Level(hoursBefore)
  }

  /** `(hours % 5) / 5 * 100`: how far into the current level the total is, in percent. */
  function Progress(hours: real): (p: real)
    ensures hours >= 0.0 ==> 0.0 <= p < 100.0
    ensures hours >= 0.0 ==> p == (hours - 5.0 * (Level(hours) - 1) as real) * 20.0
  {
    var r := JsNumber.Rem(hours, HOURS_PER_LEVEL);
    assert hours >= 0.0 ==> JsNumber.Floor(hours / 5.0) == Level(hours) - 1;
    (r / HOURS_PER_LEVEL) * 100.0
  }

  /** `5 - hours % 5`: the hours still missing to the next level. */
  function HoursToNext(hours: real): (h: real)
    ensures hours >= 0.0 ==> 0.0 < h <= 5.0
    ensures hours >= 0.0 ==> hours + h == 5.0 * Level(hours) as real
  {
    assert hours >= 0.0 ==> JsNumber.Floor(hours / 5.0) == Level(hours) - 1;
    HOURS_PER_LEVEL - JsNumber.Rem(hours, HOURS_PER_LEVEL)
  }

  /** The two readouts agree: the progress bar and the hours left describe the same point of the level. */
  lemma ProgressAndHoursToNextAgree(hours: real)
    requires hours >= 0.0
    ensures Progress(hours) == (5.0 - HoursToNext(hours)) * 20.0
  {
  }

  /** `getStageName`. */
  function StageName(level: int): (name: string)
    ensures level == 1 <==> name == "Seedling"
    ensures level == 2 <==> name == "Sprout"
    ensures level == 3 <==> name == "Sapling"
    ensures level == 4 <==> name == "Young Tree"
    ensures !(1 <= level <= 4) <==> name == "Mature Tree"
  {
    if level == 1 then "Seedling"
    else if level == 2 then "Sprout"
    else if level == 3 then "Sapling"
    else if level == 4 then "Young Tree"
    else "Mature Tree"
  }

  datatype TreeIcon = SmallSprout | Trees | LargeTrees

  /** `getTreeIcon`, from the level after the session. */
  function Icon(levelAfter: int): (i: TreeIcon)
    ensures levelAfter == 1 <==> i == SmallSprout
    ensures i == Trees <==> levelAfter != 1 && levelAfter < 5
  {
    if levelAfter == 1 then SmallSprout else if levelAfter < 5 then Trees else LargeTrees
  }

  /** The value shown after `step` of the sixty ticks, before the last one sets the total outright. */
  function Interpolated(hoursBefore: real, hoursAfter: real, step: nat): real {
    hoursBefore + step as real * ((hoursAfter - hoursBefore) / 60.0)
  }

  /**
   * The counter animation: sixty ticks, each adding a sixtieth of the difference, with the
   * last one setting the new total outright. Returns the value shown after each tick.
   */
  method Animate(hoursBefore: real, hoursAfter: real) returns (frames: seq<real>)
    ensures |frames| == STEPS
    ensures frames[STEPS - 1] == hoursAfter
    ensures forall k :: 0 <= k < STEPS - 1 ==> frames[k] == Interpolated(hoursBefore, hoursAfter, k + 1)
    ensures hoursBefore <= hoursAfter ==> forall k :: 0 <= k < STEPS ==> hoursBefore <= frames[k] <= hoursAfter
  {
    var increment := (hoursAfter - hoursBefore) / STEPS as real;
    var current := hoursBefore;
    var step := 0;
    frames := [];
    while step < STEPS
      invariant 0 <= step <= STEPS && |frames| == step
      invariant current == Interpolated(hoursBefore, hoursAfter, step)
      invariant forall k :: 0 <= k < step ==> frames[k] == if k == STEPS - 1 then hoursAfter else Interpolated(hoursBefore, hoursAfter, k + 1)
      invariant hoursBefore <= hoursAfter ==> forall k :: 0 <= k < step ==> hoursBefore <= frames[k] <= hoursAfter
    {
      NextStep(hoursBefore, hoursAfter, step);
      step := step + 1;
      current := current + increment;
      var shown := if step >= STEPS then hoursAfter else current;
      if hoursBefore <= hoursAfter && step < STEPS {
        StepWithinRange(hoursBefore, hoursAfter, step);
      }
      frames := frames + [shown];
    }
  }

  lemma NextStep(hoursBefore: real, hoursAfter: real, step: nat)
    ensures Interpolated(hoursBefore, hoursAfter, step) + (hoursAfter - hoursBefore) / 60.0 == Interpolated(hoursBefore, hoursAfter, step + 1)
  {
  }

  /** Every intermediate value lies between the two totals. */
  lemma StepWithinRange(hoursBefore: real, hoursAfter: real, step: nat)
    requires hoursBefore <= hoursAfter && step <= STEPS
    ensures hoursBefore <= Interpolated(hoursBefore, hoursAfter, step) <= hoursAfter
  {
    var inc := (hoursAfter - hoursBefore) / 60.0;
    assert inc >= 0.0;
    assert step as real * inc <= 60.0 * inc;
  }
}
