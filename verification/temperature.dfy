/**
 * The animated temperature read-out (AnimatedTemperature.js): the colour band
 * of the displayed value and the 1.5 s ease-out-cubic count from the previous
 * value to the new one. Timestamps (`Date.now()`) are parameters and each
 * animation frame is one explicit step.
 */
module Temperature {
  import opened Wrappers

  datatype Band = Cold | Cool | Mild | Warm | Hot

  /** Position of a band on the cold-to-hot scale. */
  function Rank(b: Band): (n: nat)
    ensures n <= 4
  {
    match b
    case Cold => 0
    case Cool => 1
    case Mild => 2
    case Warm => 3
    case Hot => 4
  }

  /** `getTemperatureColor`: bands closed on the right at 0, 10, 20 and 30 degrees. */
  function ColorBand(t: int): (b: Band)
    ensures b == Cold <==> t <= 0
    ensures b == Cool <==> 0 < t <= 10
    ensures b == Mild <==> 10 < t <= 20
    ensures b == Warm <==> 20 < t <= 30
    ensures b == Hot <==> 30 < t
  {
    if t <= 0 then Cold
    else if t <= 10 then Cool
    else if t <= 20 then Mild
    else if t <= 30 then Warm
    else Hot
  }

  /** A warmer reading never gets a colder band. */
  lemma ColorBandMonotone(a: int, b: int)
    requires a <= b
    ensures Rank(ColorBand(a)) <= Rank(ColorBand(b))
  {
  }

  /** Each band is hit by some temperature, so the five classes are all reachable. */
  lemma ColorBandOnto(b: Band)
    ensures exists t: int :: ColorBand(t) == b
  {
    var t := Rank(b) * 10;
    assert ColorBand(t + if b == Hot then 1 else 0) == b;
  }

  const Duration: real := 1500.0

  /** `Math.min(elapsed / duration, 1)`. */
  function Progress(elapsed: real): (p: real)
    ensures p <= 1.0
    ensures elapsed >= 0.0 ==> 0.0 <= p
    ensures p == 1.0 <==> elapsed >= Duration
    ensures p < 1.0 ==> p * Duration == elapsed
  {
    if elapsed / Duration < 1.0 then elapsed / Duration else 1.0
  }

  function Cube(x: real): real {
    x * x * x
  }

  /** `1 - Math.pow(1 - progress, 3)`, the ease-out cubic. */
  function Ease(p: real): (e: real)
    ensures p == 0.0 ==> e == 0.0
    ensures p == 1.0 ==> e == 1.0
    ensures 0.0 <= p <= 1.0 ==> 0.0 <= e <= 1.0
    ensures 0.0 <= p <= 1.0 ==> p <= e
  {
    var q := 1.0 - p;
    if 0.0 <= q <= 1.0 then
      CubeWithin(q);
      1.0 - Cube(q)
    else
      1.0 - Cube(q)
  }

  /** Scaling a non-negative `d` by a factor in [0, 1] stays within [0, d]. */
  lemma ScaleWithin(e: real, d: real)
    requires 0.0 <= e <= 1.0 && 0.0 <= d
    ensures 0.0 <= d * e <= d
  {
  }

  /** On [0, 1] a cube never exceeds its base. */
  lemma CubeWithin(q: real)
    requires 0.0 <= q <= 1.0
    ensures 0.0 <= Cube(q) <= q
  {
    ScaleWithin(q, q);
    ScaleWithin(q, q * q);
    assert Cube(q) == (q * q) * q;
  }

  /** Cubes of non-negative reals grow with their base. */
  lemma CubeMonotone(x: real, y: real)
    requires 0.0 <= x <= y
    ensures Cube(x) <= Cube(y)
  {
    assert x * x <= y * y by {
      assert x * x <= x * y;
      assert x * y <= y * y;
    }
    assert x * x * x <= y * y * x;
    assert y * y * x <= y * y * y;
  }

  /** The ease never moves backwards on [0, 1]. */
  lemma EaseMonotone(p: real, q: real)
    requires 0.0 <= p <= q <= 1.0
    ensures Ease(p) <= Ease(q)
  {
    CubeMonotone(1.0 - q, 1.0 - p);
  }

  /** `startValue + (endValue - startValue) * easeProgress`. */
  function Interpolate(start: int, end: int, e: real): (v: real)
    ensures 0.0 <= e <= 1.0 && start <= end ==> start as real <= v <= end as real
    ensures 0.0 <= e <= 1.0 && end <= start ==> end as real <= v <= start as real
    ensures e == 0.0 ==> v == start as real
    ensures e == 1.0 ==> v == end as real
  {
    var d := (end - start) as real;
    if 0.0 <= e <= 1.0 then
      ScaleWithin(e, if start <= end then d else -d);
      start as real + d * e
    else
      start as real + d * e
  }

  /** `Math.round`: the nearest integer, halves rounded up. */
  function Round(x: real): (n: int)
    ensures n as real - 0.5 <= x < n as real + 0.5
  {
    (x + 0.5).Floor
  }

  /** Rounding a value that lies between two integers stays between them. */
  lemma RoundBetween(x: real, lo: int, hi: int)
    requires lo as real <= x <= hi as real
    ensures lo <= Round(x) <= hi
  {
  }

  /** The running animation: where it counts from, where to, and when it started. */
  datatype Animation = Animation(start: int, end: int, startTime: real)

  /**
   * The component's state: the prop last rendered, the displayed number,
   * the `isAnimating` flag, `previousValue.current`, and the pending frame.
   */
  datatype View = View(prop: int, display: int, animating: bool, previous: int, running: Option<Animation>)

  function Mount(value: int): (v: View)
    ensures v.display == value && v.previous == value && !v.animating && v.running.None?
  {
    View(value, value, false, value, None)
  }

  /**
   * A new `value` prop arrives at time `now`. React re-runs the effect only for
   * a changed prop; the re-run first cancels the pending frame, then starts a
   * count from `previousValue.current` unless the new value equals it.
   */
  function OnValue(v: View, value: int, now: real): (r: View)
    ensures value == v.prop ==> r == v
    ensures value != v.prop && value == v.previous ==> r.running.None? && r.display == v.display && r.animating == v.animating
    ensures value != v.prop && value != v.previous ==>
      r.animating && r.running == Some(Animation(v.previous, value, now)) && r.display == v.display
    ensures r.prop == value && r.previous == v.previous
  {
    if value == v.prop then v
    else
      var cancelled := v.(prop := value, running := None);
      if value == v.previous then cancelled
      else cancelled.(animating := true, running := Some(Animation(v.previous, value, now)))
  }

  /** One animation frame at time `now`. */
  function OnFrame(v: View, now: real): (r: View)
    requires v.running.Some?
    ensures var a := v.running.value;
      now >= a.startTime ==>
        (a.start <= a.end ==> a.start <= r.display <= a.end) &&
        (a.end <= a.start ==> a.end <= r.display <= a.start)
    ensures var a := v.running.value;
      now - a.startTime >= Duration ==>
        r.display == a.end && r.previous == a.end && !r.animating && r.running.None?
    ensures var a := v.running.value;
      now - a.startTime < Duration ==> r.running == v.running && r.previous == v.previous
  {
    var a := v.running.value;
    var p := Progress(now - a.startTime);
    if p < 1.0 then
      var x := Interpolate(a.start, a.end, Ease(p));
      if now >= a.startTime then
        RoundBetween(x, if a.start <= a.end then a.start else a.end, if a.start <= a.end then a.end else a.start);
        v.(display := Round(x))
      else
        v.(display := Round(x))
    else
      v.(display := a.end, animating := false, previous := a.end, running := None)
  }

  /**
   * The consistency the component is meant to keep: with no frame pending the
   * display rests on the current prop; with a frame pending it counts from
   * `previous` to the current prop.
   */
  predicate Settled(v: View) {
    && (v.running.None? ==> !v.animating && v.display == v.prop && v.previous == v.prop)
    && (v.running.Some? ==> v.animating && v.running.value.start == v.previous && v.running.value.end == v.prop)
  }

  /** Frames keep a settled view settled, and the final frame lands on the prop. */
  lemma FrameKeepsSettled(v: View, now: real)
    requires Settled(v) && v.running.Some?
    ensures Settled(OnFrame(v, now))
    ensures now - v.running.value.startTime >= Duration ==> OnFrame(v, now).display == v.prop
  {
  }

  /**
   * As written, returning to the previous value while a count is running
   * cancels the frame without finishing it: the display stays at an
   * intermediate number and `isAnimating` stays set, with nothing pending.
   */
  lemma StuckWhenValueReturns()
    ensures var v := OnValue(OnFrame(OnValue(Mount(10), 20, 0.0), 750.0), 10, 800.0);
      v.prop == 10 && v.display == 19 && v.animating && v.running.None? && !Settled(v)
  {
    var v1 := OnValue(Mount(10), 20, 0.0);
    assert Progress(750.0) == 0.5;
    assert Ease(0.5) == 0.875;
    assert Interpolate(10, 20, 0.875) == 18.75;
    assert Round(18.75) == 19;
  }

  /**
   * The effect with the evident intent restored: when the prop returns to the
   * value the count started from, the display snaps back to it and the
   * animation flag is cleared.
   */
  function OnValueCorrected(v: View, value: int, now: real): (r: View)
    ensures Settled(v) ==> Settled(r)
    ensures r.prop == value
    ensures value == v.prop ==> r == v
    ensures r.running.None? && Settled(v) ==> r.display == value
  {
    if value == v.prop then v
    else
      var cancelled := v.(prop := value, running := None);
      if value == v.previous then cancelled.(display := value, animating := false)
      else cancelled.(animating := true, running := Some(Animation(v.previous, value, now)))
  }

  /** With the correction, the same sequence of props ends at rest on the prop. */
  lemma CorrectedSettlesWhenValueReturns()
    ensures var v := OnValueCorrected(OnFrame(OnValueCorrected(Mount(10), 20, 0.0), 750.0), 10, 800.0);
      v.display == 10 && !v.animating && Settled(v)
  {
  }
}
