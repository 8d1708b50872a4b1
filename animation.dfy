/**
 * The frame counter of an animated sprite: every movement adds `speed * 8` to a clock,
 * and when the clock reaches 100 the sprite shows the next of the 3 frames of its
 * walking direction and the clock starts again from 0.
 */
module Animation {

  datatype Direction = Down | Left | Right | Up

  /** Frames cut from the sprite sheet for each direction. */
  const FRAMES_PER_DIRECTION: int := 3
  /** Clock value at which the next frame is shown. */
  const CLOCK_LIMIT: int := 100
  /** The clock grows by `speed * CLOCK_RATE` per call. */
  const CLOCK_RATE: int := 8
  /** Speed given to every animated sprite when it is created. */
  const INITIAL_SPEED: int := 2

  /** The image on show: frame `index` of the sheet row of `dir`. */
  datatype Frame = Frame(dir: Direction, index: int)

  datatype AnimState = AnimState(image: Frame, animationIndex: int, clock: int)

  /** Counter bounds every sprite keeps: a valid frame index and a clock below the limit. */
  predicate CounterOk(a: AnimState)
  {
    0 <= a.animationIndex < FRAMES_PER_DIRECTION && 0 <= a.clock < CLOCK_LIMIT
  }

  /** A fresh sprite: first "down" frame, index 0, clock 0. */
  function InitialAnim(): (a: AnimState)
    ensures CounterOk(a) && a.animationIndex == 0 && a.clock == 0
  {
    AnimState(Frame(Down, 0), 0, 0)
  }

  /** `change_animation(dir)` of a sprite moving at `speed`. */
  function ChangeAnimation(a: AnimState, dir: Direction, speed: int): (b: AnimState)
    requires 0 <= a.animationIndex < FRAMES_PER_DIRECTION
  {
    var clock := a.clock + speed * CLOCK_RATE;
    if clock >= CLOCK_LIMIT then
      var index := a.animationIndex + 1;
      AnimState(Frame(dir, a.animationIndex), if index >= FRAMES_PER_DIRECTION then 0 else index, 0)
    else
      AnimState(Frame(dir, a.animationIndex), a.animationIndex, clock)
  }

  /**
   * One call shows the frame selected by the index before it advances; the index moves
   * cyclically through the 3 frames exactly when the clock reaches the limit, and for a
   * non-negative speed the clock stays below the limit.
   */
  lemma ChangeAnimationSpec(a: AnimState, dir: Direction, speed: int)
    requires CounterOk(a) && speed >= 0
    ensures var b := ChangeAnimation(a, dir, speed);
      && b.image == Frame(dir, a.animationIndex)
      && CounterOk(b)
      && (a.clock + speed * CLOCK_RATE >= CLOCK_LIMIT ==>
            b.clock == 0 && b.animationIndex == (a.animationIndex + 1) % FRAMES_PER_DIRECTION)
      && (a.clock + speed * CLOCK_RATE < CLOCK_LIMIT ==>
            b.clock == a.clock + speed * CLOCK_RATE && b.animationIndex == a.animationIndex)
  {
  }

  /** `n` successive calls in the same direction at the same speed. */
  function AnimateN(a: AnimState, dir: Direction, speed: int, n: nat): (b: AnimState)
    requires CounterOk(a) && speed >= 0
    ensures CounterOk(b)
  {
    if n == 0 then a
    else
      var prev := AnimateN(a, dir, speed, n - 1);
      ChangeAnimation(prev, dir, speed)
  }

  /** While `8 * speed * n` stays below 100, `n` calls from a zero clock only advance the clock. */
  lemma {:induction false} ClockAccumulates(a: AnimState, dir: Direction, speed: int, n: nat)
    requires CounterOk(a) && a.clock == 0 && speed >= 0
    requires speed * CLOCK_RATE * n < CLOCK_LIMIT
    ensures AnimateN(a, dir, speed, n).animationIndex == a.animationIndex
    ensures AnimateN(a, dir, speed, n).clock == speed * CLOCK_RATE * n
  {
    if n > 0 {
      assert speed * CLOCK_RATE * (n - 1) <= speed * CLOCK_RATE * n;
      ClockAccumulates(a, dir, speed, n - 1);
      assert speed * CLOCK_RATE * (n - 1) + speed * CLOCK_RATE == speed * CLOCK_RATE * n;
    }
  }

  /**
   * The call after those shows the next frame: if `8 * speed * (n - 1) < 100 <= 8 * speed * n`,
   * the n-th call moves the index one frame on (cyclically) and resets the clock.
   */
  lemma FrameAdvancesAfter(a: AnimState, dir: Direction, speed: int, n: nat)
    requires CounterOk(a) && a.clock == 0 && speed >= 0 && n >= 1
    requires speed * CLOCK_RATE * (n - 1) < CLOCK_LIMIT <= speed * CLOCK_RATE * n
    ensures AnimateN(a, dir, speed, n).animationIndex == (a.animationIndex + 1) % FRAMES_PER_DIRECTION
    ensures AnimateN(a, dir, speed, n).clock == 0
  {
    ClockAccumulates(a, dir, speed, n - 1);
    assert speed * CLOCK_RATE * (n - 1) + speed * CLOCK_RATE == speed * CLOCK_RATE * n;
  }

  /** The player walks at speed 2: its frame changes on every 7th step. */
  lemma PlayerFrameEverySeventhStep(a: AnimState, dir: Direction)
    requires CounterOk(a) && a.clock == 0
    ensures forall n: nat :: 1 <= n < 7 ==>
      AnimateN(a, dir, INITIAL_SPEED, n).animationIndex == a.animationIndex
    ensures AnimateN(a, dir, INITIAL_SPEED, 7).animationIndex == (a.animationIndex + 1) % 3
  {
    forall n: nat | 1 <= n < 7
      ensures AnimateN(a, dir, INITIAL_SPEED, n).animationIndex == a.animationIndex
    {
      ClockAccumulates(a, dir, INITIAL_SPEED, n);
    }
    FrameAdvancesAfter(a, dir, INITIAL_SPEED, 7);
  }
}
