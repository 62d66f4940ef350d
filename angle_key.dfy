/**
 * The key of components/CustomKey.tsx: a single key with a label and an optional
 * mapping from swipe names to characters. A release classifies the drag into a tap or
 * one of eight 45° angle buckets and hands one character to onKeyPress.
 *
 * The drag angle, in degrees, is an input here: it is `atan2(dy, dx) * 180 / π`,
 * which lies in [-180, 180] (atan2 of a negative zero dy and a negative dx is -π) and
 * is positive clockwise from the rightward axis (dy grows downwards).
 */
module AngleKey {
  import opened Optional
  import opened Reals

  /** Displacement, in pixels, under which a drag along both axes is a tap. */
  const SwipeThreshold: real := 20.0

  /** The names returned by getSwipeDirection. */
  datatype Swipe =
    | Tap | SwipeRight | SwipeDownRight | SwipeDown | SwipeDownLeft
    | SwipeLeft | SwipeUpLeft | SwipeUp | SwipeUpRight

  /** The eight tests of the classifier, one per swipe, each on the angle alone. */
  predicate BucketTest(s: Swipe, angle: real) {
    match s
    case Tap => false
    case SwipeRight => angle >= -22.5 && angle < 22.5
    case SwipeDownRight => angle >= 22.5 && angle < 67.5
    case SwipeDown => angle >= 67.5 && angle < 112.5
    case SwipeDownLeft => angle >= 112.5 && angle < 157.5
    case SwipeLeft => angle >= 157.5 || angle < -157.5
    case SwipeUpLeft => angle >= -157.5 && angle < -112.5
    case SwipeUp => angle >= -112.5 && angle < -67.5
    case SwipeUpRight => angle >= -67.5 && angle < -22.5
  }

  /** The angle each swipe is named after: a multiple of 45°. */
  function Centre(s: Swipe): real
    requires s != Tap
  {
    match s
    case SwipeRight => 0.0
    case SwipeDownRight => 45.0
    case SwipeDown => 90.0
    case SwipeDownLeft => 135.0
    case SwipeLeft => 180.0
    case SwipeUpLeft => -135.0
    case SwipeUp => -90.0
    case SwipeUpRight => -45.0
  }

  /** The angle moved onto [-157.5, 202.5), so that the leftward bucket is one interval. */
  function Unwrapped(angle: real): real {
    if angle < -157.5 then angle + 360.0 else angle
  }

  /** The angle lies in the 45°-wide half-open interval centred on s: [centre - 22.5, centre + 22.5). */
  predicate Around(s: Swipe, angle: real) {
    s != Tap && Centre(s) - 22.5 <= Unwrapped(angle) < Centre(s) + 22.5
  }

  /**
   * getSwipeDirection: a tap when the drag is under 20 px on both axes, whatever the
   * angle; otherwise the swipe whose 45° bucket, centred on its own multiple of 45°,
   * holds the angle. The closing `return 'tap'` is never reached past the threshold test.
   */
  function SwipeDirection(dx: real, dy: real, angle: real): (s: Swipe)
    ensures Abs(dx) < SwipeThreshold && Abs(dy) < SwipeThreshold ==> s == Tap
    ensures !(Abs(dx) < SwipeThreshold && Abs(dy) < SwipeThreshold) ==> s != Tap
    ensures !(Abs(dx) < SwipeThreshold && Abs(dy) < SwipeThreshold) && -180.0 <= angle <= 180.0 ==>
      Around(s, angle)
  {
    if Abs(dx) < SwipeThreshold && Abs(dy) < SwipeThreshold then Tap
    else if BucketTest(SwipeRight, angle) then SwipeRight
    else if BucketTest(SwipeDownRight, angle) then SwipeDownRight
    else if BucketTest(SwipeDown, angle) then SwipeDown
    else if BucketTest(SwipeDownLeft, angle) then SwipeDownLeft
    else if BucketTest(SwipeLeft, angle) then SwipeLeft
    else if BucketTest(SwipeUpLeft, angle) then SwipeUpLeft
    else if BucketTest(SwipeUp, angle) then SwipeUp
    else if BucketTest(SwipeUpRight, angle) then SwipeUpRight
    else Tap
  }

  /** Exactly one of the eight bucket tests succeeds, for every angle. */
  lemma ExactlyOneBucket(angle: real)
    ensures exists s :: BucketTest(s, angle)
    ensures forall s, t :: BucketTest(s, angle) && BucketTest(t, angle) ==> s == t
  {
    if -22.5 <= angle < 22.5 {
      assert BucketTest(SwipeRight, angle);
    } else if 22.5 <= angle < 67.5 {
      assert BucketTest(SwipeDownRight, angle);
    } else if 67.5 <= angle < 112.5 {
      assert BucketTest(SwipeDown, angle);
    } else if 112.5 <= angle < 157.5 {
      assert BucketTest(SwipeDownLeft, angle);
    } else if angle >= 157.5 || angle < -157.5 {
      assert BucketTest(SwipeLeft, angle);
    } else if -157.5 <= angle < -112.5 {
      assert BucketTest(SwipeUpLeft, angle);
    } else if -112.5 <= angle < -67.5 {
      assert BucketTest(SwipeUp, angle);
    } else {
      assert BucketTest(SwipeUpRight, angle);
    }
  }

  /** On [-180, 180] each bucket test is exactly the centred interval of its swipe. */
  lemma BucketsAreCentred(s: Swipe, angle: real)
    requires -180.0 <= angle <= 180.0
    ensures BucketTest(s, angle) <==> Around(s, angle)
  {
  }

  /**
   * Past the threshold, and for an angle as atan2 gives it, the classifier answers s
   * exactly when the angle lies in the bucket centred on s.
   */
  lemma SwipeDirectionIsTheCentredBucket(dx: real, dy: real, angle: real, s: Swipe)
    requires !(Abs(dx) < SwipeThreshold && Abs(dy) < SwipeThreshold)
    requires -180.0 <= angle <= 180.0
    ensures SwipeDirection(dx, dy, angle) == s <==> Around(s, angle)
  {
    var t := SwipeDirection(dx, dy, angle);
    if Around(s, angle) {
      BucketsAreCentred(s, angle);
      BucketsAreCentred(t, angle);
      ExactlyOneBucket(angle);
    }
  }

  /** The boundaries belong to the bucket above them. */
  lemma BoundaryAngles(dx: real, dy: real)
    requires !(Abs(dx) < SwipeThreshold && Abs(dy) < SwipeThreshold)
    ensures SwipeDirection(dx, dy, 22.5) == SwipeDownRight
    ensures SwipeDirection(dx, dy, -22.5) == SwipeRight
    ensures SwipeDirection(dx, dy, -157.5) == SwipeUpLeft
    ensures SwipeDirection(dx, dy, 157.5) == SwipeLeft
    ensures SwipeDirection(dx, dy, 180.0) == SwipeLeft
    ensures SwipeDirection(dx, dy, -180.0) == SwipeLeft
  {
  }

  // ------------------------------------------------------------------
  // Resolution

  /** KeyMapping: swipe name to character; a missing key stands for `undefined`. */
  type KeyMapping = map<Swipe, string>

  /**
   * `selectedChar`: the label on a tap; otherwise the mapped character when the key has
   * a mapping with a non-empty entry for the swipe, and the label when the mapping is
   * absent, has no entry, or has an empty one. Nothing is upper-cased.
   */
  function SelectedChar(keyLabel: string, mapping: Option<KeyMapping>, s: Swipe): (c: string)
    ensures c == keyLabel || (mapping.Some? && s in mapping.value && c == mapping.value[s])
    ensures s == Tap ==> c == keyLabel
    ensures mapping.None? ==> c == keyLabel
    ensures mapping.Some? && (s !in mapping.value || mapping.value[s] == "") ==> c == keyLabel
    ensures s != Tap && mapping.Some? && s in mapping.value && mapping.value[s] != "" ==>
      c == mapping.value[s]
  {
    if s == Tap then keyLabel
    else if mapping.Some? && s in mapping.value && mapping.value[s] != "" then mapping.value[s]
    else keyLabel
  }

  /**
   * onPanResponderRelease: the one character handed to onKeyPress for a drag (dx, dy)
   * at the given angle. A drag under the threshold always gives the label.
   */
  function ReleaseChar(keyLabel: string, mapping: Option<KeyMapping>, dx: real, dy: real, angle: real): (c: string)
    ensures Abs(dx) < SwipeThreshold && Abs(dy) < SwipeThreshold ==> c == keyLabel
    ensures c == keyLabel || (mapping.Some? && c in mapping.value.Values && c != "")
  {
    SelectedChar(keyLabel, mapping, SwipeDirection(dx, dy, angle))
  }

  /**
   * Unlike the keyboard's own keys, nothing is upper-cased: a rightward swipe past the
   * threshold hands over the mapped value exactly as given, and a key without a mapping
   * hands over its label exactly as given.
   */
  lemma NoUpperCasing(keyLabel: string, v: string, dx: real, dy: real, angle: real)
    requires !(Abs(dx) < SwipeThreshold && Abs(dy) < SwipeThreshold)
    requires -22.5 <= angle < 22.5 && v != ""
    ensures ReleaseChar(keyLabel, Some(map[SwipeRight := v]), dx, dy, angle) == v
    ensures ReleaseChar(keyLabel, None, dx, dy, angle) == keyLabel
  {
  }
}
