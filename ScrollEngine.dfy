/**
 * The teleprompter's scroll controller. Every display frame it adds the play
 * speed and the voice delta to a target position, clamps it to the scrollable
 * range, eases a smoothed position a fixed fraction of the way toward it,
 * clamps that too, rounds it to a whole pixel and tells the observer only when
 * the pixel changed. A reset snaps everything to the top.
 *
 * `Step` states one frame as a function of the old state; the class
 * `ScrollController` holds the state in fields and updates it in place, as the
 * display component does with its refs, and is proved to agree with `Step`.
 * Positions are reals: floating-point rounding is not modelled.
 */
module ScrollEngine {
  import opened Types

  /** The fraction of the remaining distance the smoothed position covers per frame. */
  const EasingFactor: real := 0.08

  function Min(a: real, b: real): real { if a <= b then a else b }
  function Max(a: real, b: real): real { if a >= b then a else b }

  /** `Math.max(0, Math.min(x, hi))`. */
  function Clamp(x: real, hi: real): (r: real)
    ensures 0.0 <= hi ==> 0.0 <= r <= hi
    ensures 0.0 <= x <= hi ==> r == x
    ensures x < 0.0 ==> r == 0.0
    ensures 0.0 <= hi < x ==> r == hi
  {
    Max(0.0, Min(x, hi))
  }

  /** `Math.round` on a non-negative position: the nearest integer, halves upward. */
  function RoundHalfUp(x: real): (n: int)
    ensures x - 0.5 < n as real <= x + 0.5
  {
    (x + 0.5).Floor
  }

  /** A position inside `[0, m]` rounds to a pixel inside `[0, m]`. */
  lemma RoundWithin(x: real, m: int)
    requires 0.0 <= x <= m as real
    ensures 0 <= RoundHalfUp(x) <= m
  {
  }

  /** One easing step from `s` toward `t`. */
  function Ease(s: real, t: real): (r: real)
    ensures Min(s, t) <= r <= Max(s, t)
    ensures r - t == (1.0 - EasingFactor) * (s - t)
  {
    s + (t - s) * EasingFactor
  }

  /** The controller's state: target, smoothed position and the last rendered pixel. */
  datatype ScrollState = ScrollState(target: real, smoothed: real, rendered: int)

  const Top := ScrollState(0.0, 0.0, 0)

  /** What a frame reads: the scrollable extent and the playback signal. */
  datatype Frame = Frame(maxScroll: int, isPlaying: bool, scrollSpeed: real, voiceDelta: real)

  /** The distance the target moves in one frame before clamping. */
  function Rate(f: Frame): real
  {
    (if f.isPlaying then f.scrollSpeed else 0.0) + f.voiceDelta
  }

  /** The result of one frame: the new state and the observer call, if any. */
  datatype StepResult = StepResult(state: ScrollState, notified: Option<int>)

  /**
   * One animation frame. When the content fits (`maxScroll <= 0`) everything is
   * pinned to the top. Otherwise both positions end inside `[0, maxScroll]`, the
   * rendered pixel is the rounded smoothed position, and the observer is called,
   * with the new pixel, exactly when the pixel changed.
   */
  function Step(st: ScrollState, f: Frame): (r: StepResult)
    ensures f.maxScroll <= 0 ==> r.state == Top
    ensures var m := Max(0.0, f.maxScroll as real);
      && 0.0 <= r.state.target <= m
      && 0.0 <= r.state.smoothed <= m
    ensures r.state.rendered == RoundHalfUp(r.state.smoothed)
    ensures r.notified.Some? <==> r.state.rendered != st.rendered
    ensures r.notified.Some? ==> r.notified.value == r.state.rendered
  {
    if f.maxScroll <= 0 then
      StepResult(Top, if st.rendered != 0 then Some(0) else None)
    else
      var m := f.maxScroll as real;
      var t := Clamp(st.target + Rate(f), m);
      var s := Clamp(Ease(st.smoothed, t), m);
      var n := RoundHalfUp(s);
      StepResult(ScrollState(t, s, n), if n != st.rendered then Some(n) else None)
  }

  /** A state a frame can leave behind for this extent. */
  predicate InRange(st: ScrollState, maxScroll: int)
  {
    && 0.0 <= st.target <= maxScroll as real
    && 0.0 <= st.smoothed <= maxScroll as real
    && st.rendered == RoundHalfUp(st.smoothed)
  }

  /** Unless it hits an end of the range, the target moves by exactly the frame's rate. */
  lemma TargetMovesByRate(st: ScrollState, f: Frame)
    requires f.maxScroll > 0
    requires 0.0 <= st.target + Rate(f) <= f.maxScroll as real
    ensures Step(st, f).state.target == st.target + Rate(f)
  {
  }

  /**
   * Easing is a convex combination: the new smoothed position lies between the
   * old one and the new target, and the gap to the target shrinks by 0.92.
   */
  lemma SmoothedBetween(st: ScrollState, f: Frame)
    requires f.maxScroll > 0 && InRange(st, f.maxScroll)
    ensures var r := Step(st, f).state;
      && Min(st.smoothed, r.target) <= r.smoothed <= Max(st.smoothed, r.target)
      && r.smoothed - r.target == 0.92 * (st.smoothed - r.target)
  {
    var t := Step(st, f).state.target;
    var e := Ease(st.smoothed, t);
    assert 0.0 <= e <= f.maxScroll as real;
  }

  /** Paused, with no voice delta and nothing left to ease, a frame changes nothing. */
  lemma IdleFrameIsNoOp(st: ScrollState, f: Frame)
    requires f.maxScroll > 0 && InRange(st, f.maxScroll)
    requires !f.isPlaying && f.voiceDelta == 0.0
    requires st.smoothed == st.target
    ensures Step(st, f) == StepResult(st, None)
  {
  }

  /** Settled at the bottom while moving down (or at the top while moving up), a frame changes nothing. */
  lemma SettledAtEndIsNoOp(st: ScrollState, f: Frame)
    requires f.maxScroll > 0 && InRange(st, f.maxScroll)
    requires st.smoothed == st.target
    requires (st.target == f.maxScroll as real && Rate(f) >= 0.0)
          || (st.target == 0.0 && Rate(f) <= 0.0)
    ensures Step(st, f) == StepResult(st, None)
  {
  }

  /** The first frame of the worked example: target 2, smoothed 0.16, still on pixel 0. */
  lemma FirstFrameExample()
    ensures Step(Top, Frame(1000, true, 2.0, 0.0))
         == StepResult(ScrollState(2.0, 0.16, 0), None)
  {
  }

  /** `n` frames under an unchanging signal. */
  function RunFrames(st: ScrollState, f: Frame, n: nat): ScrollState
    decreases n
  {
    if n == 0 then st else RunFrames(Step(st, f).state, f, n - 1)
  }

  /** Where a target at `t` would be after `n` moves of `k`, ignoring the range. */
  function Drift(t: real, n: nat, k: real): real
  {
    t + (n as real) * k
  }

  /** Two clamped moves in the same direction are one clamped move. */
  lemma ClampCompose(t: real, k: real, m: real, n: nat)
    requires 0.0 <= t <= m && n >= 1
    ensures Clamp(Drift(Clamp(t + k, m), n - 1, k), m) == Clamp(Drift(t, n, k), m)
  {
    var j := (n - 1) as real;
    assert (n as real) * k == k + j * k;
    if k >= 0.0 {
      assert j * k >= 0.0;
    } else {
      assert j * k <= 0.0;
    }
  }

  /**
   * Under a constant signal the target moves linearly until it meets an end of
   * the range: after `n` frames it is the clamp of `target + n * rate`. With the
   * play speed positive this is the target climbing to `maxScroll` and staying.
   */
  lemma {:induction false} TargetAfterFrames(st: ScrollState, f: Frame, n: nat)
    requires f.maxScroll > 0 && InRange(st, f.maxScroll)
    ensures RunFrames(st, f, n).target == Clamp(Drift(st.target, n, Rate(f)), f.maxScroll as real)
    decreases n
  {
    if n > 0 {
      var k, m := Rate(f), f.maxScroll as real;
      var st1 := Step(st, f).state;
      assert st1.target == Clamp(st.target + k, m);
      assert RunFrames(st, f, n) == RunFrames(st1, f, n - 1);
      TargetAfterFrames(st1, f, n - 1);
      ClampCompose(st.target, k, m, n);
    }
  }

  /** While playing with no voice delta and a non-negative speed, the target never moves back. */
  lemma TargetNonDecreasing(st: ScrollState, f: Frame)
    requires f.maxScroll > 0 && InRange(st, f.maxScroll)
    requires f.isPlaying && f.scrollSpeed >= 0.0 && f.voiceDelta == 0.0
    ensures st.target <= Step(st, f).state.target <= f.maxScroll as real
  {
  }

  function Pow(b: real, n: nat): real
  {
    if n == 0 then 1.0 else b * Pow(b, n - 1)
  }

  /** A gap `g` after `n` easing steps toward a fixed target: `0.92^n * g`. */
  function Decayed(g: real, n: nat): real
  {
    Pow(1.0 - EasingFactor, n) * g
  }

  /** One more easing step multiplies the decayed gap by 0.92 once more. */
  lemma DecayedStep(g: real, n: nat)
    requires n >= 1
    ensures Decayed((1.0 - EasingFactor) * g, n - 1) == Decayed(g, n)
  {
    var p := Pow(1.0 - EasingFactor, n - 1);
    assert Pow(1.0 - EasingFactor, n) == (1.0 - EasingFactor) * p;
    assert p * ((1.0 - EasingFactor) * g) == ((1.0 - EasingFactor) * p) * g;
  }

  /**
   * With the target standing still, the smoothed position approaches it
   * geometrically and never overshoots: after `n` frames the gap is `0.92^n`
   * times the initial gap.
   */
  lemma {:induction false} GapAfterFrames(st: ScrollState, f: Frame, n: nat)
    requires f.maxScroll > 0 && InRange(st, f.maxScroll)
    requires Rate(f) == 0.0
    ensures RunFrames(st, f, n).target == st.target
    ensures RunFrames(st, f, n).smoothed - st.target == Decayed(st.smoothed - st.target, n)
    decreases n
  {
    if n > 0 {
      var st1 := Step(st, f).state;
      SmoothedBetween(st, f);
      assert st1.target == st.target;
      assert st1.smoothed - st.target == (1.0 - EasingFactor) * (st.smoothed - st.target);
      assert RunFrames(st, f, n) == RunFrames(st1, f, n - 1);
      GapAfterFrames(st1, f, n - 1);
      DecayedStep(st.smoothed - st.target, n);
    }
  }

  /**
   * The display's scroll state, updated in place each frame. `rendered` is the
   * pixel last pushed to the screen; `frameScheduled` says whether a frame
   * callback is pending; `resetDeps` is what the reset effect saw when it last
   * ran (`None` before its first run, at mount).
   */
  class ScrollController {
    var target: real
    var smoothed: real
    var rendered: int
    var frameScheduled: bool
    var resetDeps: Option<(string, bool)>

    ghost predicate Valid()
      reads this
    {
      0.0 <= target && 0.0 <= smoothed && rendered == RoundHalfUp(smoothed)
    }

    function State(): ScrollState
      reads this
    {
      ScrollState(target, smoothed, rendered)
    }

    constructor ()
      ensures Valid() && State() == Top
      ensures !frameScheduled && resetDeps == None
    {
      target, smoothed, rendered := 0.0, 0.0, 0;
      frameScheduled := false;
      resetDeps := None;
    }

    /**
     * The frame callback. It agrees with `Step` and, on every path, schedules
     * the next frame.
     */
    method Tick(maxScroll: int, isPlaying: bool, scrollSpeed: real, voiceDelta: real)
      returns (notified: Option<int>)
      requires Valid()
      modifies this`target, this`smoothed, this`rendered, this`frameScheduled
      ensures Valid() && frameScheduled
      ensures var r := Step(old(State()), Frame(maxScroll, isPlaying, scrollSpeed, voiceDelta));
        State() == r.state && notified == r.notified
    {
      if maxScroll <= 0 {
        target := 0.0;
        smoothed := 0.0;
        if rendered != 0 {
          rendered := 0;
          notified := Some(0);
        } else {
          notified := None;
        }
        frameScheduled := true;
        return;
      }
      if isPlaying {
        target := target + scrollSpeed;
      }
      if voiceDelta != 0.0 {
        target := target + voiceDelta;
      }
      target := Max(0.0, Min(target, maxScroll as real));
      smoothed := smoothed + (target - smoothed) * EasingFactor;
      smoothed := Max(0.0, Min(smoothed, maxScroll as real));
      var newTop := RoundHalfUp(smoothed);
      if newTop != rendered {
        rendered := newTop;
        notified := Some(newTop);
      } else {
        notified := None;
      }
      frameScheduled := true;
    }

    /**
     * The activation effect, run at mount and whenever the play flag or the
     * voice delta changes: a frame is requested, unless one is pending, exactly
     * when the display is playing or a voice delta is active; otherwise a
     * pending frame is cancelled.
     */
    method ActivationEffect(isPlaying: bool, voiceDelta: real)
      modifies this`frameScheduled
      ensures frameScheduled <==> isPlaying || voiceDelta != 0.0
    {
      if isPlaying || voiceDelta != 0.0 {
        if !frameScheduled {
          frameScheduled := true;
        }
      } else {
        if frameScheduled {
          frameScheduled := false;
        }
      }
    }

    /**
     * The activation effect's cleanup, run before each re-run of the effect and
     * at unmount: a pending frame is cancelled.
     */
    method CancelFrame()
      modifies this`frameScheduled
      ensures !frameScheduled
    {
      if frameScheduled {
        frameScheduled := false;
      }
    }

    /** Snap to the top and tell the observer 0, whatever the state was. */
    method Reset() returns (notified: int)
      modifies this`target, this`smoothed, this`rendered
      ensures Valid() && State() == Top && notified == 0
    {
      target := 0.0;
      smoothed := 0.0;
      rendered := 0;
      notified := 0;
    }

    /**
     * The reset effect: it runs at mount and whenever the script text or the
     * reset trigger differs from what it last saw, and then resets. A pending
     * frame is left as it is.
     */
    method ResetEffect(script: string, trigger: bool) returns (notified: Option<int>)
      requires Valid()
      modifies this`target, this`smoothed, this`rendered, this`resetDeps
      ensures Valid() && resetDeps == Some((script, trigger))
      ensures old(resetDeps) != Some((script, trigger)) ==> State() == Top && notified == Some(0)
      ensures old(resetDeps) == Some((script, trigger)) ==> State() == old(State()) && notified == None
    {
      if resetDeps != Some((script, trigger)) {
        var n := Reset();
        notified := Some(n);
        resetDeps := Some((script, trigger));
      } else {
        notified := None;
      }
    }
  }
}
