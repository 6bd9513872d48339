/**
 * Per-frame state of the viewer: the frame clock and its deltaTime, the
 * bottle's spin, the wing-flap oscillator, the two click toggles, the
 * slider-driven projection parameters and the choice of projection.
 *
 * Timestamps (Date.now) are parameters; the model matrices built from this
 * state by the matrix library are not modelled, only the numbers fed to it.
 */
module Animation {

  // ---------------------------------------------------------------------------
  // The frame clock (both viewers)

  /** Holds the timestamp of the previous frame, in milliseconds. */
  class FrameClock {
    var lastFrameMS: int

    constructor (startMS: int)
      ensures lastFrameMS == startMS
    {
      lastFrameMS := startMS;
    }

    /** One frame: the time since the previous frame, which becomes `now`. */
    method Tick(now: int) returns (deltaTime: int)
      modifies this
      ensures deltaTime == now - old(lastFrameMS)
      ensures lastFrameMS == now
    {
      deltaTime := now - lastFrameMS;
      lastFrameMS := now;
    }

    /**
     * A run of frames at the given timestamps, as requestAnimationFrame
     * chains them: the deltas reported are those of Deltas.
     */
    method RunFrames(stamps: seq<int>) returns (deltas: seq<int>)
      modifies this
      ensures deltas == Deltas(old(lastFrameMS), stamps)
      ensures lastFrameMS == LastStamp(old(lastFrameMS), stamps)
    {
      var start := lastFrameMS;
      deltas := [];
      var i := 0;
      while i < |stamps|
        invariant 0 <= i <= |stamps|
        invariant deltas == Deltas(start, stamps[..i])
        invariant lastFrameMS == LastStamp(start, stamps[..i])
      {
        var d := Tick(stamps[i]);
        assert stamps[..i + 1][..i] == stamps[..i];
        deltas := deltas + [d];
        i := i + 1;
      }
      assert stamps[..i] == stamps;
    }
  }

  /** The timestamp of the latest frame, or the start before any frame. */
  function LastStamp(start: int, stamps: seq<int>): int {
    if stamps == [] then start else stamps[|stamps| - 1]
  }

  /** The deltaTime of each frame of a run starting at `start`. */
  function Deltas(start: int, stamps: seq<int>): (ds: seq<int>)
    ensures |ds| == |stamps|
  {
    if stamps == [] then []
    else
      var init := stamps[..|stamps| - 1];
      Deltas(start, init) + [stamps[|stamps| - 1] - LastStamp(start, init)]
  }

  function IntSum(xs: seq<int>): int {
    if xs == [] then 0 else IntSum(xs[..|xs| - 1]) + xs[|xs| - 1]
  }

  /** The deltas of a run add up to the time from the start to the last frame. */
  lemma {:induction false} DeltasTelescope(start: int, stamps: seq<int>)
    ensures IntSum(Deltas(start, stamps)) == LastStamp(start, stamps) - start
  {
    if stamps != [] {
      var init := stamps[..|stamps| - 1];
      var ds := Deltas(start, stamps);
      DeltasTelescope(start, init);
      assert ds[..|ds| - 1] == Deltas(start, init);
    }
  }

  /** Total rotation of a bottle spinning at `speed` degrees per millisecond over the given frame deltas. */
  function SpinTotal(speed: real, deltas: seq<int>): real {
    if deltas == [] then 0.0 else SpinTotal(speed, deltas[..|deltas| - 1]) + speed * deltas[|deltas| - 1] as real
  }

  /** Degrees per millisecond of the starter's bottle and of the viewer's bottle. */
  const StarterRotationSpeed: real := 0.05
  const RotationSpeed: real := 0.15

  lemma {:induction false} SpinTotalIsScaledSum(speed: real, deltas: seq<int>)
    ensures SpinTotal(speed, deltas) == speed * IntSum(deltas) as real
  {
    if deltas != [] {
      SpinTotalIsScaledSum(speed, deltas[..|deltas| - 1]);
    }
  }

  /**
   * The bottle's rotation over a run of frames depends only on the time
   * elapsed, not on how the frames fall.
   */
  lemma {:induction false} SpinDependsOnElapsedTime(speed: real, start: int, stamps: seq<int>)
    ensures SpinTotal(speed, Deltas(start, stamps)) == speed * (LastStamp(start, stamps) - start) as real
  {
    SpinTotalIsScaledSum(speed, Deltas(start, stamps));
    DeltasTelescope(start, stamps);
  }

  /** The starter's frame state: its clock and its bottle's accumulated rotation, in degrees. */
  class StarterScene {
    const clock: FrameClock
    var bottleAngle: real

    constructor (startMS: int)
      ensures fresh(clock) && clock.lastFrameMS == startMS && bottleAngle == 0.0
    {
      clock := new FrameClock(startMS);
      bottleAngle := 0.0;
    }

    /** One frame: deltaTime from the clock, and the bottle turned by 0.05 degrees per millisecond, always. */
    method Tick(now: int) returns (deltaTime: int)
      modifies this, clock
      ensures deltaTime == now - old(clock.lastFrameMS) && clock.lastFrameMS == now
      ensures bottleAngle == old(bottleAngle) + StarterRotationSpeed * deltaTime as real
    {
      deltaTime := clock.Tick(now);
      bottleAngle := bottleAngle + StarterRotationSpeed * deltaTime as real;
    }

    /** A chain of frames turns the bottle by 0.05 degrees per millisecond elapsed. */
    method RunFrames(stamps: seq<int>)
      modifies this, clock
      ensures clock.lastFrameMS == LastStamp(old(clock.lastFrameMS), stamps)
      ensures bottleAngle == old(bottleAngle) + SpinTotal(StarterRotationSpeed, Deltas(old(clock.lastFrameMS), stamps))
      ensures bottleAngle == old(bottleAngle) + StarterRotationSpeed * (LastStamp(old(clock.lastFrameMS), stamps) - old(clock.lastFrameMS)) as real
    {
      var start, angle0 := clock.lastFrameMS, bottleAngle;
      var i := 0;
      while i < |stamps|
        invariant 0 <= i <= |stamps|
        invariant clock.lastFrameMS == LastStamp(start, stamps[..i])
        invariant bottleAngle == angle0 + SpinTotal(StarterRotationSpeed, Deltas(start, stamps[..i]))
      {
        var d := Tick(stamps[i]);
        DeltasStep(start, stamps, i);
        i := i + 1;
      }
      assert stamps[..i] == stamps;
      SpinDependsOnElapsedTime(StarterRotationSpeed, start, stamps);
    }
  }

  /** One more frame adds its delta to the run. */
  lemma DeltasStep(start: int, stamps: seq<int>, i: nat)
    requires i < |stamps|
    ensures Deltas(start, stamps[..i + 1]) == Deltas(start, stamps[..i]) + [stamps[i] - LastStamp(start, stamps[..i])]
    ensures forall speed: real ::
              SpinTotal(speed, Deltas(start, stamps[..i + 1]))
                == SpinTotal(speed, Deltas(start, stamps[..i])) + speed * (stamps[i] - LastStamp(start, stamps[..i])) as real
    ensures LastStamp(start, stamps[..i + 1]) == stamps[i]
  {
    assert stamps[..i + 1][..i] == stamps[..i];
    var ds := Deltas(start, stamps[..i + 1]);
    assert ds[..|ds| - 1] == Deltas(start, stamps[..i]);
  }

  // ---------------------------------------------------------------------------
  // The wing-flap oscillator, in half-degrees

  /** Flap angle in half-degrees (one step of 0.5 degrees is 1) and its direction, +1 or -1. */
  datatype Flap = Flap(angle: int, direction: int)

  /** maxAngle, 25 degrees, in half-degrees. */
  const MaxAngle: int := 50

  function Abs(x: int): nat {
    if x < 0 then -x else x
  }

  /** Within [-25, 25] degrees, moving one step at a time, and pointing inward at either bound. */
  predicate FlapValid(f: Flap) {
    -MaxAngle <= f.angle <= MaxAngle &&
    (f.direction == 1 || f.direction == -1) &&
    (f.angle == MaxAngle ==> f.direction == -1) &&
    (f.angle == -MaxAngle ==> f.direction == 1)
  }

  /** One tick: move half a degree, and turn back once the bound is reached. */
  function FlapStep(f: Flap): (g: Flap)
    ensures g.angle == f.angle + f.direction
    ensures g.direction == (if Abs(g.angle) >= MaxAngle then -f.direction else f.direction)
    ensures FlapValid(f) ==> FlapValid(g)
  {
    var a := f.angle + f.direction;
    Flap(a, if Abs(a) >= MaxAngle then -f.direction else f.direction)
  }

  /** The oscillator after n ticks. */
  function FlapAfter(f: Flap, n: nat): Flap {
    if n == 0 then f else FlapStep(FlapAfter(f, n - 1))
  }

  /** The oscillator's start in the viewer: angle 0, flapping upward. */
  const FlapStart := Flap(0, 1)

  lemma {:induction false} FlapAfterValid(f: Flap, n: nat)
    requires FlapValid(f)
    ensures FlapValid(FlapAfter(f, n))
  {
    if n > 0 {
      FlapAfterValid(f, n - 1);
    }
  }

  lemma {:induction false} FlapAfterSum(f: Flap, m: nat, n: nat)
    ensures FlapAfter(f, m + n) == FlapAfter(FlapAfter(f, m), n)
  {
    if n > 0 {
      FlapAfterSum(f, m, n - 1);
    }
  }

  /** From the lower bound the wings sweep up one step per tick and turn back on reaching the upper bound at tick 100. */
  lemma {:induction false} SweepUp(k: nat)
    requires k <= 2 * MaxAngle
    ensures FlapAfter(Flap(-MaxAngle, 1), k) == if k < 2 * MaxAngle then Flap(k - MaxAngle, 1) else Flap(MaxAngle, -1)
  {
    if k > 0 {
      SweepUp(k - 1);
    }
  }

  /** The mirror image: from the upper bound down, turning at the lower bound at tick 100. */
  lemma {:induction false} SweepDown(k: nat)
    requires k <= 2 * MaxAngle
    ensures FlapAfter(Flap(MaxAngle, -1), k) == if k < 2 * MaxAngle then Flap(MaxAngle - k, -1) else Flap(-MaxAngle, 1)
  {
    if k > 0 {
      SweepDown(k - 1);
    }
  }

  /** From the start, tick 50 brings the angle to 25 degrees and has already turned the wings back. */
  lemma FiftyTicks()
    ensures forall k :: 0 <= k < MaxAngle ==> FlapAfter(FlapStart, k) == Flap(k, 1)
    ensures FlapAfter(FlapStart, MaxAngle) == Flap(MaxAngle, -1)
  {
    SweepUp(MaxAngle);
    forall k | 0 <= k < MaxAngle
      ensures FlapAfter(FlapStart, k) == Flap(k, 1)
    {
      FlapAfterSum(Flap(-MaxAngle, 1), MaxAngle, k);
      SweepUp(MaxAngle + k);
    }
    FlapAfterSum(Flap(-MaxAngle, 1), MaxAngle, MaxAngle);
    SweepUp(2 * MaxAngle);
  }

  /** The oscillation repeats every 200 ticks (100 degrees of travel there and back). */
  lemma FlapPeriod(n: nat)
    ensures FlapAfter(FlapStart, n + 4 * MaxAngle) == FlapAfter(FlapStart, n)
  {
    var low := Flap(-MaxAngle, 1);
    SweepUp(MaxAngle);
    SweepUp(2 * MaxAngle);
    SweepDown(2 * MaxAngle);
    FlapAfterSum(low, 2 * MaxAngle, 2 * MaxAngle);
    assert FlapAfter(low, 4 * MaxAngle) == low;
    FlapAfterSum(low, MaxAngle, 4 * MaxAngle);
    FlapAfterSum(low, 4 * MaxAngle, MaxAngle);
    assert FlapAfter(FlapStart, 4 * MaxAngle) == FlapStart;
    FlapAfterSum(FlapStart, 4 * MaxAngle, n);
  }

  /**
   * The y-rotations (degrees) of the two wings for a flap angle in
   * half-degrees: they mirror each other about -90 degrees.
   */
  function WingRotations(angle: int): (r: (real, real))
    ensures r.0 + r.1 == -180.0
    ensures r.1 - r.0 == angle as real - 140.0
    ensures -MaxAngle <= angle <= MaxAngle ==> -45.0 <= r.0 <= 5.0 && -185.0 <= r.1 <= -135.0
  {
    var degrees := angle as real / 2.0;
    (-20.0 - degrees, -(160.0 - degrees))
  }

  // ---------------------------------------------------------------------------
  // The viewer's scene state

  datatype Projection =
    | Ortho(left: real, right: real, bottom: real, top: real, near: real, far: real)
    | Perspective(fovy: real, aspect: real, near: real, far: real)

  /** The sliders of the page; each stores the number it is given. */
  datatype Slider = FovySlider | AspectSlider | NearSlider | FarSlider | LeftSlider | RightSlider
                  | BottomSlider | TopSlider | CameraXSlider | HeartYSlider

  class Scene {
    const clock: FrameClock
    /** 0: orthographic, 1: perspective. */
    var cameraType: int
    var bottleSpin: bool
    /** The bottle's accumulated rotation about its y axis, in degrees. */
    var bottleAngle: real
    var flapAngle: int
    var flapDirection: int
    var fovy: real
    var aspect: real
    var near: real
    var far: real
    var left: real
    var right: real
    var bottom: real
    var top: real
    var cameraX: real
    var heartY: real

    ghost predicate Valid()
      reads this
    {
      (cameraType == 0 || cameraType == 1) && FlapValid(Flap(flapAngle, flapDirection))
    }

    function Flapping(): Flap
      reads this
    {
      Flap(flapAngle, flapDirection)
    }

    /** The value a slider last stored. */
    function Setting(s: Slider): real
      reads this
    {
      match s
      case FovySlider => fovy
      case AspectSlider => aspect
      case NearSlider => near
      case FarSlider => far
      case LeftSlider => left
      case RightSlider => right
      case BottomSlider => bottom
      case TopSlider => top
      case CameraXSlider => cameraX
      case HeartYSlider => heartY
    }

    /** The state main() leaves before the first tick. */
    constructor (startMS: int)
      ensures Valid() && fresh(clock) && clock.lastFrameMS == startMS
      ensures cameraType == 0 && bottleSpin && bottleAngle == 0.0 && Flapping() == FlapStart
      ensures ActiveProjection() == Ortho(-1.0, 1.0, -1.0, 1.0, 0.8, 4.0)
      ensures fovy == 90.0 && aspect == 1.0 && cameraX == 0.0 && heartY == 50.0
    {
      clock := new FrameClock(startMS);
      cameraType := 0;
      bottleSpin := true;
      bottleAngle := 0.0;
      flapAngle := 0;
      flapDirection := 1;
      fovy := 90.0;
      aspect := 1.0;
      left := -1.0;
      right := 1.0;
      bottom := -1.0;
      top := 1.0;
      near := 0.8;
      far := 4.0;
      cameraX := 0.0;
      heartY := 50.0;
    }

    /**
     * One frame: deltaTime from the clock, the bottle turned by 0.15 degrees
     * per millisecond while spinning, and one step of the flap.
     */
    method Tick(now: int) returns (deltaTime: int)
      requires Valid()
      modifies this, clock
      ensures Valid()
      ensures deltaTime == now - old(clock.lastFrameMS) && clock.lastFrameMS == now
      ensures bottleAngle == old(bottleAngle) + (if bottleSpin then RotationSpeed * deltaTime as real else 0.0)
      ensures Flapping() == FlapStep(old(Flapping()))
      ensures cameraType == old(cameraType) && bottleSpin == old(bottleSpin)
      ensures forall s :: Setting(s) == old(Setting(s))
    {
      deltaTime := clock.Tick(now);
      if bottleSpin {
        bottleAngle := bottleAngle + RotationSpeed * deltaTime as real;
      }
      flapAngle := flapAngle + flapDirection;
      if Abs(flapAngle) >= MaxAngle {
        flapDirection := -flapDirection;
      }
    }

    /**
     * A chain of frames: while the spin switch stays as it is, the bottle
     * turns by 0.15 degrees per millisecond elapsed if it spins and not at
     * all otherwise, and the flap takes one step per frame.
     */
    method RunFrames(stamps: seq<int>)
      requires Valid()
      modifies this, clock
      ensures Valid()
      ensures clock.lastFrameMS == LastStamp(old(clock.lastFrameMS), stamps)
      ensures bottleAngle == old(bottleAngle) + (if bottleSpin then SpinTotal(RotationSpeed, Deltas(old(clock.lastFrameMS), stamps)) else 0.0)
      ensures bottleAngle == old(bottleAngle) + (if bottleSpin then RotationSpeed * (LastStamp(old(clock.lastFrameMS), stamps) - old(clock.lastFrameMS)) as real else 0.0)
      ensures Flapping() == FlapAfter(old(Flapping()), |stamps|)
      ensures cameraType == old(cameraType) && bottleSpin == old(bottleSpin)
      ensures forall s :: Setting(s) == old(Setting(s))
    {
      var start, angle0, flap0 := clock.lastFrameMS, bottleAngle, Flapping();
      var i := 0;
      while i < |stamps|
        invariant 0 <= i <= |stamps|
        invariant Valid()
        invariant clock.lastFrameMS == LastStamp(start, stamps[..i])
        invariant bottleAngle == angle0 + (if bottleSpin then SpinTotal(RotationSpeed, Deltas(start, stamps[..i])) else 0.0)
        invariant Flapping() == FlapAfter(flap0, i)
        invariant cameraType == old(cameraType) && bottleSpin == old(bottleSpin)
        invariant forall s :: Setting(s) == old(Setting(s))
      {
        var d := Tick(stamps[i]);
        DeltasStep(start, stamps, i);
        i := i + 1;
      }
      assert stamps[..i] == stamps;
      SpinDependsOnElapsedTime(RotationSpeed, start, stamps);
    }

    /** The camera switch button flips between the two projections. */
    method SwitchCamera()
      requires Valid()
      modifies this
      ensures Valid()
      ensures cameraType == 1 - old(cameraType)
      ensures ActiveProjection().Ortho? == !old(ActiveProjection().Ortho?)
      ensures bottleSpin == old(bottleSpin) && bottleAngle == old(bottleAngle) && Flapping() == old(Flapping())
      ensures forall s :: Setting(s) == old(Setting(s))
    {
      cameraType := 1 - cameraType;
    }

    /** The stop button toggles the spin. */
    method ToggleSpin()
      requires Valid()
      modifies this
      ensures Valid()
      ensures bottleSpin == !old(bottleSpin)
      ensures cameraType == old(cameraType) && bottleAngle == old(bottleAngle) && Flapping() == old(Flapping())
      ensures forall s :: Setting(s) == old(Setting(s))
    {
      bottleSpin := !bottleSpin;
    }

    /** A slider stores its number; nothing else changes. */
    method Update(s: Slider, amount: real)
      requires Valid()
      modifies this
      ensures Valid()
      ensures Setting(s) == amount
      ensures forall t :: t != s ==> Setting(t) == old(Setting(t))
      ensures cameraType == old(cameraType) && bottleSpin == old(bottleSpin)
      ensures bottleAngle == old(bottleAngle) && Flapping() == old(Flapping())
    {
      match s
      case FovySlider => fovy := amount;
      case AspectSlider => aspect := amount;
      case NearSlider => near := amount;
      case FarSlider => far := amount;
      case LeftSlider => left := amount;
      case RightSlider => right := amount;
      case BottomSlider => bottom := amount;
      case TopSlider => top := amount;
      case CameraXSlider => cameraX := amount;
      case HeartYSlider => heartY := amount;
    }

    /** draw(): orthographic with the box sliders when the camera type is 0, otherwise perspective; both share near and far. */
    function ActiveProjection(): (p: Projection)
      reads this
      ensures p.Ortho? <==> cameraType == 0
      ensures p.near == near && p.far == far
      ensures p.Ortho? ==> p == Ortho(left, right, bottom, top, near, far)
      ensures p.Perspective? ==> p == Perspective(fovy, aspect, near, far)
    {
      if cameraType == 0 then Ortho(left, right, bottom, top, near, far)
      else Perspective(fovy, aspect, near, far)
    }
  }
}
