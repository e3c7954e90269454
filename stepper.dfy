/**
 * The control rules of the two-stepper tower (src/controls/stepper.py):
 * the rocking arm (stepper 1) reverses at an angular bound, the rotating
 * wheel (stepper 2) turns faster as a simulated score grows.
 *
 * Encoder angles and step intervals are Python floats; they are modelled as
 * exact `real`s. The encoder reading and the random draws are parameters.
 */
module Stepper {
  import opened Wrappers

  /** Step direction of a motor (adafruit_motor FORWARD / BACKWARD). */
  datatype Direction = Forward | Backward

  /** Class attributes of TowerControl. */
  const MaxAngle: real := 20.0
  const MinAngle: real := -20.0
  const MaxInterval: real := 0.05
  const MinInterval: real := 0.01
  /** `score_goal`, set to 50 by the constructor and never reassigned. */
  const ScoreGoal: int := 50

  /** The `(interval, direction)` pair an algorithm hands to a stepper. */
  datatype Command = Command(interval: real, direction: Direction)

  predicate InIntervalRange(x: real) {
    MinInterval <= x <= MaxInterval
  }

  predicate StrictlyInside(angle: real) {
    MinAngle < angle < MaxAngle
  }

  /**
   * The arm is heading back into (or stays within) the allowed sector:
   * at or past the upper bound it moves backward, at or past the lower
   * bound it moves forward.
   */
  predicate HeadingInward(direction: Direction, angle: real) {
    && (angle >= MaxAngle ==> direction == Backward)
    && (angle <= MinAngle ==> direction == Forward)
  }

  // ---------------------------------------------------------------------
  // Rocking arm (stepper 1)
  // ---------------------------------------------------------------------

  /**
   * `stepper1_algo` as written: `drawn` is the value of
   * `random.uniform(0.01, 0.05)` and `angle` the encoder reading.
   * `None` is the fall-through after the "ERROR Trigger" log lines, where
   * the Python function returns no tuple at all.
   */
  function Stepper1Algo(direction: Direction, angle: real, drawn: real): (r: Option<Command>)
    requires InIntervalRange(drawn)
    ensures r.Some? ==> r.value.interval == drawn && InIntervalRange(r.value.interval)
    ensures angle >= MaxAngle && direction == Forward ==> r == Some(Command(drawn, Backward))
    ensures angle <= MinAngle && direction == Backward ==> r == Some(Command(drawn, Forward))
    ensures StrictlyInside(angle) ==> r == Some(Command(drawn, direction))
    // the missing tuple occurs exactly when the arm is out of the sector
    // while already heading back in
    ensures r.None? <==> !StrictlyInside(angle) && HeadingInward(direction, angle)
    // every command that is returned steers the arm back into the sector
    ensures r.Some? ==> HeadingInward(r.value.direction, angle)
  {
    if angle >= MaxAngle then
      if direction == Forward then Some(Command(drawn, Backward)) else None
    else if angle <= MinAngle then
      if direction == Backward then Some(Command(drawn, Forward)) else None
    else
      Some(Command(drawn, direction))
  }

  /**
   * Two consecutive control ticks at the same encoder reading on the bound
   * (the arm has not stepped between them): the first reverses the arm, the
   * second yields no command, so the unpacking in `game_run` fails.
   */
  lemma StalledTickAfterReversalFails(angle: real, first: real, second: real)
    requires angle >= MaxAngle
    requires InIntervalRange(first) && InIntervalRange(second)
    ensures Stepper1Algo(Forward, angle, first) == Some(Command(first, Backward))
    ensures Stepper1Algo(Backward, angle, second).None?
  {
  }

  /**
   * The rocking policy with the inconsistent case holding the previous
   * direction instead of returning nothing.
   */
  function Stepper1AlgoHeld(direction: Direction, angle: real, drawn: real): (r: Command)
    requires InIntervalRange(drawn)
    ensures r.interval == drawn
    ensures HeadingInward(r.direction, angle)
    ensures HeadingInward(direction, angle) ==> r.direction == direction
    ensures Stepper1Algo(direction, angle, drawn).Some? ==> Stepper1Algo(direction, angle, drawn) == Some(r)
  {
    match Stepper1Algo(direction, angle, drawn)
    case Some(c) => c
    case None => Command(drawn, direction)
  }

  /**
   * With the corrected policy, re-running a tick at an unchanged encoder
   * reading never reverses the arm a second time.
   */
  lemma HeldTickIsStable(direction: Direction, angle: real, first: real, second: real)
    requires InIntervalRange(first) && InIntervalRange(second)
    ensures var c := Stepper1AlgoHeld(direction, angle, first);
            Stepper1AlgoHeld(c.direction, angle, second) == Command(second, c.direction)
  {
  }

  // ---------------------------------------------------------------------
  // Rotating wheel (stepper 2)
  // ---------------------------------------------------------------------

  /**
   * `score_map`, the second (effective) definition: true division on reals.
   * Python raises ZeroDivisionError when the input range is empty.
   */
  function ScoreMap(x: real, inMin: real, inMax: real, outMin: real, outMax: real): (r: real)
    requires inMax != inMin
    ensures x == inMin ==> r == outMin
    ensures x == inMax ==> r == outMax
  {
    var scaled := (x - inMin) * (outMax - outMin);
    assert x == inMin ==> scaled == 0.0;
    assert x == inMax ==> scaled / (inMax - inMin) == outMax - outMin;
    scaled / (inMax - inMin) + outMin
  }

  /** Over an increasing input range, `score_map` follows the output range's orientation. */
  lemma ScoreMapMonotone(x: real, y: real, inMin: real, inMax: real, outMin: real, outMax: real)
    requires inMin < inMax && x <= y
    ensures outMin <= outMax ==> ScoreMap(x, inMin, inMax, outMin, outMax) <= ScoreMap(y, inMin, inMax, outMin, outMax)
    ensures outMax <= outMin ==> ScoreMap(y, inMin, inMax, outMin, outMax) <= ScoreMap(x, inMin, inMax, outMin, outMax)
  {
    var w := inMax - inMin;
    var d := outMax - outMin;
    var sx := (x - inMin) * d;
    var sy := (y - inMin) * d;
    assert sy - sx == (y - x) * d;
    QuotientSign(sy - sx, w, y - x, d);
    assert ScoreMap(y, inMin, inMax, outMin, outMax) - ScoreMap(x, inMin, inMax, outMin, outMax) == sy / w - sx / w;
    assert sy / w - sx / w == (sy - sx) / w;
  }

  /** Sign of (a * b) / w for a non-negative a and a positive w. */
  lemma QuotientSign(p: real, w: real, a: real, b: real)
    requires p == a * b && 0.0 <= a && 0.0 < w
    ensures 0.0 <= b ==> 0.0 <= p / w
    ensures b <= 0.0 ==> p / w <= 0.0
  {
    if 0.0 <= b {
      assert 0.0 <= p;
    } else {
      assert p <= 0.0;
    }
  }

  /** An input inside the input range maps between the two output bounds. */
  lemma ScoreMapBetween(x: real, inMin: real, inMax: real, outMin: real, outMax: real)
    requires inMin < inMax
    ensures inMin <= x <= inMax ==>
              var r := ScoreMap(x, inMin, inMax, outMin, outMax);
              (outMin <= outMax ==> outMin <= r <= outMax) && (outMax <= outMin ==> outMax <= r <= outMin)
  {
    if inMin <= x <= inMax {
      ScoreMapMonotone(inMin, x, inMin, inMax, outMin, outMax);
      ScoreMapMonotone(x, inMax, inMin, inMax, outMin, outMax);
    }
  }

  /**
   * What `stepper2_algo` returns once the counter has been read: the
   * interval is the score mapped from [0, score_goal] onto the inverted
   * range [max_interval, min_interval]; the direction is passed through.
   */
  function Stepper2Command(direction: Direction, score: int): (r: Command)
    ensures r.direction == direction
    ensures score == 0 ==> r.interval == MaxInterval
    ensures score == ScoreGoal ==> r.interval == MinInterval
    ensures 0 <= score <= ScoreGoal ==> InIntervalRange(r.interval)
  {
    ScoreMapBetween(score as real, 0.0, ScoreGoal as real, MaxInterval, MinInterval);
    Command(ScoreMap(score as real, 0.0, ScoreGoal as real, MaxInterval, MinInterval), direction)
  }

  /** A higher score never gives a longer wheel interval (the wheel never slows down as the score grows). */
  lemma WheelIntervalNonIncreasing(direction: Direction, lower: int, higher: int)
    requires lower <= higher
    ensures Stepper2Command(direction, higher).interval <= Stepper2Command(direction, lower).interval
  {
    ScoreMapMonotone(lower as real, higher as real, 0.0, ScoreGoal as real, MaxInterval, MinInterval);
  }

  /** Half the goal maps to the midpoint of the interval range. */
  lemma WheelIntervalAtHalfGoal(direction: Direction)
    ensures Stepper2Command(direction, ScoreGoal / 2).interval == 0.03
  {
  }

  // ---------------------------------------------------------------------
  // Simulated score counter
  // ---------------------------------------------------------------------

  /** The value `get_score` stores in `total_score` and returns. */
  function NextScore(score: int, goal: int): (r: int)
    ensures r == score + 1 || r == 0
    ensures 0 <= score <= goal ==> 0 <= r <= goal
    ensures 0 <= score ==> (r == score + 1 <==> score < goal)
  {
    if score < goal then score + 1 else 0
  }

  /** `total_score` after `calls` calls of `get_score`, starting from the constructor's 0. */
  function ScoreAfter(calls: nat, goal: int): (r: int)
    ensures 0 <= goal ==> 0 <= r <= goal
  {
    if calls == 0 then 0 else NextScore(ScoreAfter(calls - 1, goal), goal)
  }

  /** Starting from 0, the counter counts up by one per call until it reaches the goal. */
  lemma {:induction false} ScoreAfterCountsUp(calls: nat, goal: int)
    requires calls <= goal
    ensures ScoreAfter(calls, goal) == calls
  {
    if calls > 0 {
      ScoreAfterCountsUp(calls - 1, goal);
    }
  }

  /** The call after reaching the goal wraps to 0, so the sequence repeats with period goal + 1. */
  lemma {:induction false} ScoreAfterPeriodic(calls: nat, goal: nat)
    ensures ScoreAfter(calls + goal + 1, goal) == ScoreAfter(calls, goal)
  {
    if calls == 0 {
      ScoreAfterCountsUp(goal, goal);
    } else {
      ScoreAfterPeriodic(calls - 1, goal);
      assert calls + goal + 1 - 1 == (calls - 1) + goal + 1;
    }
  }

  // ---------------------------------------------------------------------
  // The controller object
  // ---------------------------------------------------------------------

  /**
   * `TowerControl`: the fields the control loop reads and writes. The two
   * hardware stepper objects are reduced to their `direction` and
   * `interval` attributes; their initial values come from the hardware
   * layer and are constructor parameters.
   */
  class TowerControl {
    var armDirection: Direction    // stepper1.direction
    var armInterval: real          // stepper1.interval
    var wheelDirection: Direction  // stepper2.direction
    var wheelInterval: real        // stepper2.interval
    var totalScore: int            // total_score

    ghost predicate Valid()
      reads this
    {
      0 <= totalScore <= ScoreGoal
    }

    constructor (armDirection0: Direction, armInterval0: real, wheelDirection0: Direction, wheelInterval0: real)
      ensures Valid() && totalScore == 0
      ensures armDirection == armDirection0 && armInterval == armInterval0
      ensures wheelDirection == wheelDirection0 && wheelInterval == wheelInterval0
    {
      armDirection, armInterval := armDirection0, armInterval0;
      wheelDirection, wheelInterval := wheelDirection0, wheelInterval0;
      totalScore := 0;
    }

    /** `get_score`: one step of the simulated counter. */
    method GetScore() returns (score: int)
      requires Valid()
      modifies this`totalScore
      ensures Valid()
      ensures totalScore == NextScore(old(totalScore), ScoreGoal) && score == totalScore
      ensures totalScore == old(totalScore) + 1 || totalScore == 0
    {
      if totalScore < ScoreGoal {
        totalScore := totalScore + 1;
      } else {
        totalScore := 0;
      }
      score := totalScore;
    }

    /** The start-direction block of `game_run`; `draw` is `random.randint(0, 1)`. */
    method SetStartDirection(draw: int)
      requires 0 <= draw <= 1
      modifies this`armDirection
      ensures armDirection == Forward
    {
      if draw == 0 {
        armDirection := Forward;
      } else {
        armDirection := Forward;
      }
    }

    /** `stepper2_algo`: advances the counter, then maps it to a wheel command. */
    method Stepper2Algo() returns (c: Command)
      requires Valid()
      modifies this`totalScore
      ensures Valid()
      ensures totalScore == NextScore(old(totalScore), ScoreGoal)
      ensures c == Stepper2Command(wheelDirection, totalScore)
      ensures c.direction == wheelDirection && InIntervalRange(c.interval)
    {
      var score := GetScore();
      c := Stepper2Command(wheelDirection, score);
    }

    /**
     * One iteration of the `while True` loop of `game_run`: arm command,
     * then wheel command. When the arm policy returns no tuple the
     * unpacking raises, `ok` is false and nothing has been assigned.
     */
    method ControlTick(angle: real, drawn: real) returns (ok: bool)
      requires Valid() && InIntervalRange(drawn)
      modifies this
      ensures Valid()
      ensures ok <==> Stepper1Algo(old(armDirection), angle, drawn).Some?
      ensures !ok ==> unchanged(this)
      ensures ok ==> && Some(Command(armInterval, armDirection)) == Stepper1Algo(old(armDirection), angle, drawn)
                     && totalScore == NextScore(old(totalScore), ScoreGoal)
                     && Command(wheelInterval, wheelDirection) == Stepper2Command(old(wheelDirection), totalScore)
                     && InIntervalRange(armInterval) && InIntervalRange(wheelInterval)
                     && HeadingInward(armDirection, angle)
    {
      var arm := Stepper1Algo(armDirection, angle, drawn);
      if arm.None? {
        return false;
      }
      armInterval, armDirection := arm.value.interval, arm.value.direction;
      var wheel := Stepper2Algo();
      wheelInterval, wheelDirection := wheel.interval, wheel.direction;
      ok := true;
    }
  }
}
