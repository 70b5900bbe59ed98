/**
 * The exercise recovery screen (components/recovery/PhysicalResetRecovery.tsx): a randomly
 * chosen exercise with a 15- or 20-second countdown that must run out before work resumes.
 * The one-second interval is modelled as explicit `Tick` calls, each followed by the effect
 * that watches the countdown.
 */
module PhysicalReset {
  import opened Wrappers
  import opened Strings
  import JsNumber
  import DurationText

  datatype Exercise = Exercise(id: nat, text: string, duration: nat)

  const EXERCISES: seq<Exercise> := [
    Exercise(1, "Stand up and do 10 jumping jacks", 20),
    Exercise(2, "Stretch your arms above your head", 15),
    Exercise(3, "Take 5 deep breaths", 20),
    Exercise(4, "Roll your shoulders 10 times", 15),
    Exercise(5, "Stand on one foot for 15 seconds", 15)
  ]

  /** The exercise a draw of `Math.random()` in [0, 1) picks. */
  function ChooseExercise(draw: real): (e: Exercise)
    requires 0.0 <= draw < 1.0
    ensures e in EXERCISES && (e.duration == 15 || e.duration == 20)
  {
    var k := JsNumber.Floor(draw * 5.0);
    assert 0 <= k < 5;
    EXERCISES[k]
  }

  /** The countdown as displayed: "0:" and the seconds padded to two digits, which read back as the seconds left. */
  function Display(timeLeft: nat): (s: string)
    ensures DurationText.ReadClock(s) == Some((0, timeLeft))
  {
    var p := Pad2(timeLeft);
    assert AllDigits("0") && DigitsValue("0") == 0;
    DurationText.ReadClockOfDigits("0", p);
    assert "0" + ":" + p == "0:" + p;
    "0:" + p
  }

  class Countdown {
    const exercise: Exercise
    var timeLeft: int
    var isActive: bool
    var completed: bool

    /** The countdown stays within the exercise's length, and completion means it ran out and stopped. */
    predicate Valid()
      reads this
    {
      && (exercise.duration == 15 || exercise.duration == 20)
      && 0 <= timeLeft <= exercise.duration
      && (completed ==> timeLeft == 0 && !isActive)
    }

    constructor(draw: real)
      requires 0.0 <= draw < 1.0
      ensures Valid() && exercise == ChooseExercise(draw)
      ensures timeLeft == exercise.duration && !isActive && !completed
    {
      exercise := ChooseExercise(draw);
      timeLeft := ChooseExercise(draw).duration;
      isActive := false;
      completed := false;
    }

    /** "Start Timer" is shown only before the countdown has run. */
    predicate StartOffered()
      reads this
    {
      !isActive && !completed
    }

    /** "Done! Resume Work" is shown only once the countdown has run out. */
    predicate ResumeOffered()
      reads this
    {
      completed
    }

    method Start()
      requires Valid() && StartOffered()
      modifies this
      ensures Valid() && isActive && timeLeft == old(timeLeft) && !completed
    {
      isActive := true;
    }

    /**
     * One second: the interval decrements only while active and above zero; then the effect
     * marks a countdown at zero completed and stops it.
     */
    method Tick()
      requires Valid()
      modifies this
      ensures Valid()
      ensures old(isActive) && old(timeLeft) > 0 ==> timeLeft == old(timeLeft) - 1
      ensures !(old(isActive) && old(timeLeft) > 0) ==> timeLeft == old(timeLeft)
      ensures completed <==> old(completed) || timeLeft == 0
      ensures isActive <==> old(isActive) && timeLeft > 0
    {
      if isActive && timeLeft > 0 {
        timeLeft := timeLeft - 1;
      }
      if !(isActive && timeLeft > 0) && timeLeft == 0 {
        completed := true;
        isActive := false;
      }
    }
  }

  /** Starting the timer and letting it run completes the exercise after exactly its length in seconds. */
  method DoExercise(draw: real) returns (c: Countdown, seconds: nat)
    requires 0.0 <= draw < 1.0
    ensures c.completed && c.ResumeOffered() && c.timeLeft == 0 && !c.isActive
    ensures seconds == c.exercise.duration && (seconds == 15 || seconds == 20)
  {
    c := new Countdown(draw);
    c.Start();
    seconds := 0;
    while !c.completed
      invariant c.Valid()
      invariant c.completed || (c.isActive && c.timeLeft > 0)
      invariant c.timeLeft + seconds == c.exercise.duration
      decreases c.timeLeft + (if c.completed then 0 else 1)
    {
      c.Tick();
      seconds := seconds + 1;
    }
  }
}
