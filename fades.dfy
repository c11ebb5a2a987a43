/** The two self-terminating update commands of Trigger.java, one update() tick at a time:
    FadeOutMusic lowers a volume by a fixed step, FadeOutBackground computes elapsed / duration. */
module Fades {
  import opened SceneData

  /** Milliseconds per second. */
  const MillisInSecond: real := 1000.0

  /** The fade duration in milliseconds for a fade time given in seconds. */
  function FadeDuration(time: real): (ms: real)
    ensures time > 0.0 ==> ms > 0.0
    ensures ms / MillisInSecond == time
  {
    time * MillisInSecond
  }

  /** One FadeOutMusic.update on the current level: the new level, or None where update calls end(). */
  function MusicStep(level: real, step: real): (r: Option<real>)
    ensures r.Some? <==> level - step >= 0.0
    ensures r.Some? ==> r.value >= 0.0 && r.value + step == level
  {
    if level - step >= 0.0 then Some(level - step) else None
  }

  /** The level after `k` updates of a fade that started at level `v`, or None once end() has run. */
  function FadeAfter(v: real, step: real, k: nat): Option<real>
  {
    if k == 0 then Some(v)
    else match FadeAfter(v, step, k - 1)
      case None => None
      case Some(l) => MusicStep(l, step)
  }

  lemma ScaleBelow(k: real, v: real, step: real)
    requires step > 0.0 && k <= v / step
    ensures k * step <= v
  {
    assert k * step <= (v / step) * step;
  }

  lemma ScaleAbove(k: real, v: real, step: real)
    requires step > 0.0 && k > v / step
    ensures k * step > v
  {
    assert k * step > (v / step) * step;
  }

  /** While k <= floor(v / step) the k-th update has only lowered the level, to v - k * step >= 0. */
  lemma {:induction false} FadeLevels(v: real, step: real, k: nat)
    requires step > 0.0 && v >= 0.0
    requires k <= (v / step).Floor
    ensures FadeAfter(v, step, k) == Some(v - k as real * step)
    ensures v - k as real * step >= 0.0
  {
    ScaleBelow(k as real, v, step);
    if k > 0 {
      var j: nat := k - 1;
      FadeLevels(v, step, j);
      var l := v - j as real * step;
      assert k as real * step == j as real * step + step by {
        assert k as real == j as real + 1.0;
      }
      assert l - step == v - k as real * step;
      assert l - step >= 0.0;
      assert FadeAfter(v, step, j) == Some(l);
      assert MusicStep(l, step) == Some(v - k as real * step);
    }
  }

  /** A fade from v >= 0 with step > 0 makes exactly floor(v / step) lowering updates, the next update
      ends it, and the level is never negative on the way. */
  lemma FadeOutLength(v: real, step: real)
    requires step > 0.0 && v >= 0.0
    ensures (v / step).Floor >= 0
    ensures forall k: nat :: k <= (v / step).Floor ==>
      FadeAfter(v, step, k) == Some(v - k as real * step) && v - k as real * step >= 0.0
    ensures FadeAfter(v, step, (v / step).Floor + 1) == None
  {
    var n := (v / step).Floor;
    assert n >= 0;
    forall k: nat | k <= n
      ensures FadeAfter(v, step, k) == Some(v - k as real * step) && v - k as real * step >= 0.0
    {
      FadeLevels(v, step, k);
    }
    FadeLevels(v, step, n);
    ScaleAbove((n + 1) as real, v, step);
    assert (v - n as real * step) - step == v - (n + 1) as real * step;
  }

  /** Level 1.0 with step 0.1: ten lowering updates reach 0.0 and the eleventh update ends the fade. */
  lemma TenStepFade()
    ensures FadeAfter(1.0, 0.1, 10) == Some(0.0)
    ensures FadeAfter(1.0, 0.1, 11) == None
  {
    FadeOutLength(1.0, 0.1);
    assert (1.0 / 0.1).Floor == 10;
  }

  lemma QuotientBelowOne(e: real, d: real)
    requires 0.0 <= e < d
    ensures 0.0 <= e / d < 1.0 && (e / d) * d == e
  {
    assert (e / d) * d == e;
  }

  /** One FadeOutBackground.update given the milliseconds since the fade started: the interpolation
      coefficient, or None where update calls end(). */
  function BackgroundStep(elapsed: nat, duration: real): (r: Option<real>)
    ensures r.Some? <==> (elapsed as real) < duration
    ensures r.Some? ==> 0.0 <= r.value < 1.0 && r.value * duration == elapsed as real
  {
    if (elapsed as real) < duration then
      QuotientBelowOne(elapsed as real, duration);
      Some(elapsed as real / duration)
    else None
  }

  /** A two-second fade is half way at one second and ends from two seconds on. */
  lemma TwoSecondFade(elapsed: nat)
    ensures BackgroundStep(1000, FadeDuration(2.0)) == Some(0.5)
    ensures elapsed >= 2000 ==> BackgroundStep(elapsed, FadeDuration(2.0)) == None
  {
  }
}
