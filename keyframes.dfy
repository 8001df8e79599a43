/** The two keyframe tracks (head sway about y, foot swing about x), their
    playback windows, and the meaning of a track: piecewise-linear
    interpolation between keys, as the engine plays a float animation. */
module Keyframes {

  /** A keyframe: an integer frame and a rotation in units of pi/6 (30 degrees). */
  datatype Key = Key(frame: int, value: int)

  /** Frames strictly increase along the track. */
  predicate Increasing(keys: seq<Key>)
  {
    forall i, j :: 0 <= i < j < |keys| ==> keys[i].frame < keys[j].frame
  }

  /** The same keys, d frames later. */
  function Shifted(keys: seq<Key>, d: int): (r: seq<Key>)
    ensures |r| == |keys|
    ensures forall i :: 0 <= i < |keys| ==> r[i] == Key(keys[i].frame + d, keys[i].value)
  {
    seq(|keys|, i requires 0 <= i < |keys| => Key(keys[i].frame + d, keys[i].value))
  }

  /** The head's sway: still, turn to +30 degrees, hold, swing through zero to
      -30 degrees, hold, back to zero, over 105 frames. */
  function HeadKeys(): (r: seq<Key>)
    ensures |r| == 7 && Increasing(r)
    ensures r[0] == Key(0, 0) && r[6] == Key(105, 0)
  {
    [Key(0, 0), Key(15, 0), Key(30, 1), Key(45, 1), Key(75, -1), Key(90, -1), Key(105, 0)]
  }

  /** The feet's swing: two identical 25-frame strides over 50 frames. */
  function FootKeys(): (r: seq<Key>)
    ensures |r| == 7 && Increasing(r)
    ensures r[0] == Key(0, 0) && r[3] == Key(25, 0) && r[6] == Key(50, 0)
    ensures r[3..] == Shifted(r[..4], 25)
  {
    [Key(0, 0), Key(5, 1), Key(20, -1), Key(25, 0), Key(30, 1), Key(45, -1), Key(50, 0)]
  }

  /** A playback window: the frames from which and to which a target plays the track. */
  datatype Window = Window(from: int, to: int)

  const HeadWindow: Window := Window(0, 105)
  /** Left-front and right-back feet. */
  const FootWindowA: Window := Window(0, 25)
  /** Right-front and left-back feet. */
  const FootWindowB: Window := Window(10, 35)

  /** The head window spans the head track exactly. */
  lemma HeadWindowSpansTrack()
    ensures HeadWindow.from == HeadKeys()[0].frame
    ensures HeadWindow.to == HeadKeys()[|HeadKeys()| - 1].frame
  {
  }

  /** Both foot windows are 25 frames long and lie inside the 50-frame foot track. */
  lemma FootWindowsFitTrack()
    ensures FootKeys()[0].frame <= FootWindowA.from < FootWindowA.to <= FootKeys()[|FootKeys()| - 1].frame
    ensures FootKeys()[0].frame <= FootWindowB.from < FootWindowB.to <= FootKeys()[|FootKeys()| - 1].frame
    ensures FootWindowA.to - FootWindowA.from == 25 && FootWindowB.to - FootWindowB.from == 25
  {
  }

  // ---------------------------------------------------------------------------
  // Sampling a track.

  /** Linear interpolation between two keys at frame f. */
  function Lerp(a: Key, b: Key, f: real): real
    requires a.frame < b.frame
  {
    a.value as real + (b.value - a.value) as real * ((f - a.frame as real) / (b.frame - a.frame) as real)
  }

  /** The value of the track at frame f: the first key's value up to the first
      frame, the last key's value after the last frame, linear in between. */
  function Sample(keys: seq<Key>, f: real): real
    requires |keys| > 0
    decreases |keys|
  {
    if |keys| == 1 || f <= keys[0].frame as real then keys[0].value as real
    else if f <= keys[1].frame as real then Lerp(keys[0], keys[1], f)
    else Sample(keys[1..], f)
  }

  /** Index of the segment of the track that frame f falls in. */
  function FindSegment(keys: seq<Key>, f: real): (i: nat)
    requires |keys| >= 2
    requires keys[0].frame as real <= f <= keys[|keys| - 1].frame as real
    ensures i + 1 < |keys|
    ensures keys[i].frame as real <= f <= keys[i + 1].frame as real
    decreases |keys|
  {
    if f <= keys[1].frame as real then 0 else 1 + FindSegment(keys[1..], f)
  }

  lemma LerpEnds(a: Key, b: Key)
    requires a.frame < b.frame
    ensures Lerp(a, b, a.frame as real) == a.value as real
    ensures Lerp(a, b, b.frame as real) == b.value as real
  {
    var span := (b.frame - a.frame) as real;
    assert (b.value - a.value) as real * span / span == (b.value - a.value) as real;
  }

  /** Interpolation does not depend on where the segment sits on the time line. */
  lemma LerpShift(a: Key, b: Key, f: real, d: int)
    requires a.frame < b.frame
    ensures Lerp(Key(a.frame + d, a.value), Key(b.frame + d, b.value), f + d as real) == Lerp(a, b, f)
  {
    assert (f + d as real) - (a.frame + d) as real == f - a.frame as real;
    assert (b.frame + d) - (a.frame + d) == b.frame - a.frame;
  }

  /** On an increasing track, a frame in segment i samples to the interpolation of that segment. */
  lemma {:induction false} SampleSegment(keys: seq<Key>, i: nat, f: real)
    requires Increasing(keys)
    requires i + 1 < |keys|
    requires keys[i].frame as real <= f <= keys[i + 1].frame as real
    ensures Sample(keys, f) == Lerp(keys[i], keys[i + 1], f)
  {
    if i == 0 {
      if f <= keys[0].frame as real {
        LerpEnds(keys[0], keys[1]);
      }
    } else {
      assert keys[0].frame < keys[i].frame;
      if f <= keys[1].frame as real {
        assert keys[1].frame <= keys[i].frame;
        assert i == 1;
        LerpEnds(keys[0], keys[1]);
        LerpEnds(keys[1], keys[2]);
      } else {
        SampleSegment(keys[1..], i - 1, f);
      }
    }
  }

  /** On an increasing track, sampling at a key's frame gives that key's value. */
  lemma SampleAtKey(keys: seq<Key>, i: nat)
    requires Increasing(keys)
    requires i < |keys|
    ensures Sample(keys, keys[i].frame as real) == keys[i].value as real
  {
    if i + 1 < |keys| {
      SampleSegment(keys, i, keys[i].frame as real);
      LerpEnds(keys[i], keys[i + 1]);
    } else if i > 0 {
      SampleSegment(keys, i - 1, keys[i].frame as real);
      LerpEnds(keys[i - 1], keys[i]);
    }
  }

  /** A track whose keys from index k on repeat keys 0..k shifted by d frames
      plays the same between frames f and f + d. */
  lemma SampleShift(keys: seq<Key>, k: nat, d: int, f: real)
    requires Increasing(keys)
    requires 0 < k < |keys|
    requires keys[k..] == Shifted(keys[..k + 1], d)
    requires keys[0].frame as real <= f <= keys[k].frame as real
    ensures Sample(keys, f + d as real) == Sample(keys, f)
  {
    var first := keys[..k + 1];
    var i := FindSegment(first, f);
    assert first[i] == keys[i] && first[i + 1] == keys[i + 1];
    SampleSegment(keys, i, f);
    assert keys[k + i] == keys[k..][i] == Key(keys[i].frame + d, keys[i].value);
    assert keys[k + i + 1] == keys[k..][i + 1] == Key(keys[i + 1].frame + d, keys[i + 1].value);
    SampleSegment(keys, k + i, f + d as real);
    LerpShift(keys[i], keys[i + 1], f, d);
  }

  /** The foot track repeats itself after 25 frames. */
  lemma FootPeriodic(f: real)
    requires 0.0 <= f <= 25.0
    ensures Sample(FootKeys(), f + 25.0) == Sample(FootKeys(), f)
  {
    SampleShift(FootKeys(), 3, 25, f);
  }

  /** Looping a window is seamless when its end samples to its start. */
  predicate SeamlessLoop(keys: seq<Key>, w: Window)
    requires |keys| > 0
  {
    Sample(keys, w.from as real) == Sample(keys, w.to as real)
  }

  /** The head's window loops without a jump. */
  lemma HeadLoopSeamless()
    ensures SeamlessLoop(HeadKeys(), HeadWindow)
  {
    SampleAtKey(HeadKeys(), 0);
    SampleAtKey(HeadKeys(), 6);
  }

  /** Both foot windows loop without a jump: window A from key to key, window B
      because the track repeats itself after 25 frames. */
  lemma FootLoopsSeamless()
    ensures SeamlessLoop(FootKeys(), FootWindowA)
    ensures SeamlessLoop(FootKeys(), FootWindowB)
  {
    SampleAtKey(FootKeys(), 0);
    SampleAtKey(FootKeys(), 3);
    FootPeriodic(10.0);
  }

  /** The frame a target plays t frames after its animation began, in a cyclic window. */
  function Cursor(w: Window, t: nat): (f: int)
    requires w.from < w.to
    ensures w.from <= f < w.to
  {
    w.from + t % (w.to - w.from)
  }

  /** The feet on window B are always ten frames ahead of the feet on window A,
      although both play the one shared track. */
  lemma PhaseOffset(t: nat)
    ensures Sample(FootKeys(), Cursor(FootWindowB, t) as real)
         == Sample(FootKeys(), Cursor(FootWindowA, t + 10) as real)
  {
    var m := t % 25;
    var q := t / 25;
    assert t == 25 * q + m;
    if m < 15 {
      assert t + 10 == 25 * q + (m + 10);
      assert (t + 10) % 25 == m + 10;
    } else {
      assert t + 10 == 25 * (q + 1) + (m - 15);
      assert (t + 10) % 25 == m - 15;
      FootPeriodic((m - 15) as real);
    }
  }

  /** Frame 10 of the foot track lies on the swing from +30 to -30 degrees,
      a third of the way from +30: a rotation of +10 degrees. */
  lemma FootAtFrameTen()
    ensures Sample(FootKeys(), 10.0) == 1.0 / 3.0
  {
    SampleSegment(FootKeys(), 1, 10.0);
  }

  lemma MulNonNegative(x: real, y: real)
    requires 0.0 <= x && 0.0 <= y
    ensures 0.0 <= x * y
  {
  }

  /** A convex combination of two values in a range stays in the range. */
  lemma ConvexBetween(va: real, vb: real, g: real, lo: real, hi: real)
    requires 0.0 <= g <= 1.0
    requires lo <= va <= hi && lo <= vb <= hi
    ensures lo <= va + (vb - va) * g <= hi
  {
    if va <= vb {
      MulNonNegative(vb - va, g);
      MulNonNegative(vb - va, 1.0 - g);
    } else {
      MulNonNegative(va - vb, g);
      MulNonNegative(va - vb, 1.0 - g);
    }
  }

  /** Linear interpolation stays between the values of its keys. */
  lemma LerpBetween(a: Key, b: Key, f: real, lo: real, hi: real)
    requires a.frame < b.frame
    requires a.frame as real <= f <= b.frame as real
    requires lo <= a.value as real <= hi && lo <= b.value as real <= hi
    ensures lo <= Lerp(a, b, f) <= hi
  {
    var g := (f - a.frame as real) / (b.frame - a.frame) as real;
    assert 0.0 <= g <= 1.0;
    ConvexBetween(a.value as real, b.value as real, g, lo, hi);
  }

  /** A track never leaves the range of its key values. */
  lemma {:induction false} SampleBounded(keys: seq<Key>, f: real, lo: real, hi: real)
    requires |keys| > 0
    requires forall i :: 0 <= i < |keys| ==> lo <= keys[i].value as real <= hi
    ensures lo <= Sample(keys, f) <= hi
  {
    if |keys| == 1 || f <= keys[0].frame as real {
    } else if f <= keys[1].frame as real {
      LerpBetween(keys[0], keys[1], f, lo, hi);
    } else {
      SampleBounded(keys[1..], f, lo, hi);
    }
  }

  /** Neither the head nor a foot ever turns more than 30 degrees either way. */
  lemma RotationWithinThirtyDegrees(f: real)
    ensures -1.0 <= Sample(HeadKeys(), f) <= 1.0
    ensures -1.0 <= Sample(FootKeys(), f) <= 1.0
  {
    SampleBounded(HeadKeys(), f, -1.0, 1.0);
    SampleBounded(FootKeys(), f, -1.0, 1.0);
  }

  // The head track segment by segment, as closed formulas.

  /** Frames 15 to 30: the ramp from 0 to +30 degrees. */
  lemma HeadTurnLeft(f: real)
    requires 15.0 <= f <= 30.0
    ensures Sample(HeadKeys(), f) == (f - 15.0) / 15.0
  {
    var keys := HeadKeys();
    SampleSegment(keys, 1, f);
    assert Lerp(keys[1], keys[2], f) == Lerp(Key(15, 0), Key(30, 1), f);
  }

  /** Frames 30 to 45: the hold at +30 degrees. */
  lemma HeadHoldLeft(f: real)
    requires 30.0 <= f <= 45.0
    ensures Sample(HeadKeys(), f) == 1.0
  {
    var keys := HeadKeys();
    SampleSegment(keys, 2, f);
    assert Lerp(keys[2], keys[3], f) == Lerp(Key(30, 1), Key(45, 1), f);
  }

  /** Frames 45 to 75: the swing from +30 to -30 degrees through zero at frame 60. */
  lemma HeadSwing(f: real)
    requires 45.0 <= f <= 75.0
    ensures Sample(HeadKeys(), f) == (60.0 - f) / 15.0
  {
    var keys := HeadKeys();
    SampleSegment(keys, 3, f);
    assert Lerp(keys[3], keys[4], f) == Lerp(Key(45, 1), Key(75, -1), f);
  }

  /** Frames 75 to 90: the hold at -30 degrees. */
  lemma HeadHoldRight(f: real)
    requires 75.0 <= f <= 90.0
    ensures Sample(HeadKeys(), f) == -1.0
  {
    var keys := HeadKeys();
    SampleSegment(keys, 4, f);
    assert Lerp(keys[4], keys[5], f) == Lerp(Key(75, -1), Key(90, -1), f);
  }

  /** Frames 90 to 105: the ramp back from -30 degrees to 0. */
  lemma HeadTurnBack(f: real)
    requires 90.0 <= f <= 105.0
    ensures Sample(HeadKeys(), f) == (f - 105.0) / 15.0
  {
    var keys := HeadKeys();
    SampleSegment(keys, 5, f);
    assert Lerp(keys[5], keys[6], f) == Lerp(Key(90, -1), Key(105, 0), f);
  }

  /** On an increasing track, every frame at or after the last key samples to the last value. */
  lemma {:induction false} SampleAfterLast(keys: seq<Key>, f: real)
    requires Increasing(keys) && |keys| > 0
    requires keys[|keys| - 1].frame as real <= f
    ensures Sample(keys, f) == keys[|keys| - 1].value as real
  {
    if |keys| > 1 {
      assert keys[0].frame < keys[|keys| - 1].frame;
      if f <= keys[1].frame as real {
        assert |keys| == 2;
        LerpEnds(keys[0], keys[1]);
      } else {
        SampleAfterLast(keys[1..], f);
      }
    }
  }

  /** Before frame 15 the head is still; after frame 105 it stays at 0. */
  lemma HeadStillAtStart(f: real)
    requires f <= 15.0
    ensures Sample(HeadKeys(), f) == 0.0
  {
    var keys := HeadKeys();
    if 0.0 <= f {
      SampleSegment(keys, 0, f);
      assert Lerp(keys[0], keys[1], f) == Lerp(Key(0, 0), Key(15, 0), f);
    }
  }

  lemma HeadStillAfterEnd(f: real)
    requires 105.0 <= f
    ensures Sample(HeadKeys(), f) == 0.0
  {
    SampleAfterLast(HeadKeys(), f);
  }

  /** The head's sway is antisymmetric about frame 60, the middle of the
      swing from +30 to -30 degrees: it turns as far right as it turned left. */
  lemma HeadSwaySymmetric(d: real)
    ensures Sample(HeadKeys(), 60.0 + d) == -Sample(HeadKeys(), 60.0 - d)
  {
    var e := if d >= 0.0 then d else -d;
    if e <= 15.0 {
      HeadSwing(60.0 + e);
      HeadSwing(60.0 - e);
    } else if e <= 30.0 {
      HeadHoldRight(60.0 + e);
      HeadHoldLeft(60.0 - e);
    } else if e <= 45.0 {
      HeadTurnBack(60.0 + e);
      HeadTurnLeft(60.0 - e);
    } else {
      HeadStillAfterEnd(60.0 + e);
      HeadStillAtStart(60.0 - e);
    }
  }
}
