# DrasticKeyboard swipe keys, modelled in Dafny

DrasticKeyboard is an on-screen keyboard for React Native. Most letters come from
swipes rather than taps. This project models its gesture engine in two variants, each
as written. The two are kept apart on purpose because they behave differently.

- `swipe_keyboard.dfy` (module `SwipeKeyboard`) models `components/CustomKeyboard.tsx`:
  - The 3×3 keyboard and its distance-based classifier. The threshold is 30 px, and there are eight names: `topUp`, `topRight`, `rightSide`, `bottomRight`, `bottomDown`, `bottomLeft`, `leftSide` and `topLeft`.
  - The nine letter keys with their swipe mappings, and the digits of numeric mode.
  - The output of a release, which is always upper case and falls back to the big letter.
  - The slicing of the grid into rows.
  - The trail that follows the finger during a gesture, as a class with methods.
  - The keyboard's `numLock` state and the characters it hands to `onKeyPress`, as a class with methods.
- `angle_key.dfy` (module `AngleKey`) models `components/CustomKey.tsx`. That key uses a 20 px threshold and eight 45° angle buckets. It hands its label, or the mapped character, to `onKeyPress` without any upper-casing.
- `text.dfy` holds `Option`, the module `Reals` with `Abs` (standing for `Math.abs`, which both classifiers use), and the character helpers:
  - JavaScript's `toUpperCase`, restricted to ASCII.
  - The 26 capital letters.

Drag displacements and angles are JavaScript numbers. They are modelled as `real`s, so comparisons and absolute values are exact. `dx` grows to the right and `dy` grows downwards.

Properties proved include:
- Each classifier's outcomes are characterised completely. In `CustomKeyboard.tsx`, a drag of exactly 30 px vertically and at least 30 px horizontally falls through every test and is reported as a tap. The contract of `SwipeKeyboard.SwipeDirection` states this, as an "if and only if".
- The distance classifier is symmetric under left/right and top/bottom mirroring.
- The angle classifier picks exactly the bucket centred on a multiple of 45°.
- The nine letter keys carry the 26 capital letters, each exactly once.
- Slicing the grid into rows gives back the table in order.
- The key's state changes on grant, move, release and termination.

`CustomKey.tsx` does not upper-case, unlike `CustomKeyboard.tsx`: it hands over the mapped character or the label exactly as given (`AngleKey.NoUpperCasing`).

## Model

| member | source | states |
|---|---|---|
| SwipeKeyboard.SwipeDirection | components/CustomKeyboard.tsx:23-62 | A drag is a tap exactly when both axes are under 30 px, or when it is exactly 30 px vertically and at least 30 px horizontally. Every swipe name lies on the side the finger moved to. Corner swipes are strictly more horizontal than vertical and past 30 px vertically. Side swipes are past 30 px horizontally and under it vertically. Straight up/down swipes are past 30 px vertically and at least as vertical as horizontal. |
| SwipeKeyboard.SwipeDirectionRegions | components/CustomKeyboard.tsx:38-60 | The outcome in each region: small drags give a tap. In the four diagonal quadrants the corner name wins when \|dx\| > \|dy\|, and the vertical name wins otherwise. The horizontal band gives a side name and the vertical band gives up or down. |
| SwipeKeyboard.DiagonalDragIsNeverCorner | components/CustomKeyboard.tsx:38-52 | A drag with \|dx\| = \|dy\| is never a corner swipe, because ties go to topUp or bottomDown. |
| SwipeKeyboard.SwipeDirectionIsSymmetric | components/CustomKeyboard.tsx:23-62 | Negating dx swaps left and right in the result. Negating dy swaps top and bottom. |
| SwipeKeyboard.OutputChar | components/CustomKeyboard.tsx:131-143 | The character handed to onPress is always upper case. It is the upper-cased mapped letter when the gesture is not a tap and the mapping has a non-empty entry for that direction. Otherwise it is the upper-cased big letter: on a tap, with no mapping, with no entry, or with an empty one. |
| SwipeKeyboard.KeyOScenario | components/CustomKeyboard.tsx:246-258 | On the O key, a 50 px upward drag gives "U" and a (5, 5) drag gives "O". |
| SwipeKeyboard.DigitKeysEmitTheirDigit | components/CustomKeyboard.tsx:282 | Each digit of numeric mode comes back unchanged after upper-casing. |
| SwipeKeyboard.LetterTableCoversAlphabet | components/CustomKeyboard.tsx:229-279 | The big letters and mapped letters of the nine keys number 26, are exactly the capital letters A-Z, and contain no letter twice. |
| SwipeKeyboard.Slice | components/CustomKeyboard.tsx:289-290 | `slice(start, end)` with non-negative bounds: when start ≤ end it is the sub-sequence between the two bounds, each clamped to the length; when end < start it is empty. |
| SwipeKeyboard.SplitRows | components/CustomKeyboard.tsx:286-304 | The loop builds exactly three rows. Row r is `keys.slice(3r, 3r+3)`, and the rows laid end to end are the first nine keys in order. |
| SwipeKeyboard.GridKeys | components/CustomKeyboard.tsx:282-290 | Each mode offers exactly nine keys. Which keys they are is defined by the body, not stated by the contract: the digits of line 282 in numeric mode, the letter keys otherwise. |
| SwipeKeyboard.CustomKey.constructor | components/CustomKeyboard.tsx:104-108 | A letter key starts with no trail and with nothing pressed. |
| SwipeKeyboard.CustomKey.Grant | components/CustomKeyboard.tsx:113-118 | Granting the gesture puts the trail at (35, 35) and presses nothing. |
| SwipeKeyboard.CustomKey.Move | components/CustomKeyboard.tsx:119-125 | A move puts the trail at (35 + dx, 35 + dy) and presses nothing. |
| SwipeKeyboard.CustomKey.Release | components/CustomKeyboard.tsx:126-147 | A release hands exactly one character to onPress, the one OutputChar gives for the classified direction, and clears the trail. |
| SwipeKeyboard.CustomKey.Terminate | components/CustomKeyboard.tsx:149-151 | A termination clears the trail and presses nothing. |
| SwipeKeyboard.Keyboard.constructor | components/CustomKeyboard.tsx:225 | The keyboard starts in letter mode with nothing typed. |
| SwipeKeyboard.Keyboard.ToggleNumLock | components/CustomKeyboard.tsx:340-343 | The #123/ABC button flips numeric mode and types nothing. |
| SwipeKeyboard.Keyboard.PressSpace | components/CustomKeyboard.tsx:311-313 | The space bar types "0" in numeric mode and " " otherwise, and leaves the mode alone. |
| SwipeKeyboard.Keyboard.KeyPress | components/CustomKeyboard.tsx:294-300 | A grid key's onPress forwards its character to onKeyPress unchanged. |
| SwipeKeyboard.Keyboard.PressDigit | components/CustomKeyboard.tsx:93-97 | A digit key types its label upper-cased. |
| SwipeKeyboard.Keyboard.LeftSideRows | components/CustomKeyboard.tsx:285-304 | The grid of the current mode is three full rows of three. Row r, column c holds key 3r + c of the table, and the rows laid end to end are the table. |
| Text.ToUpper | components/CustomKeyboard.tsx:143 | Upper-casing keeps the length, leaves no lower-case letter, shifts each lower-case letter by 32 and keeps every other character. |
| Text.ToUpperIdempotent | components/CustomKeyboard.tsx:143 | Upper-casing twice is upper-casing once. |
| AngleKey.SwipeDirection | components/CustomKey.tsx:22-36 | A drag is a tap exactly when both axes are under 20 px. Past that, for an angle in [-180, 180], the result is the swipe whose 45° bucket, centred on its multiple of 45°, holds the angle. |
| AngleKey.ExactlyOneBucket | components/CustomKey.tsx:27-34 | For every angle exactly one of the eight bucket tests holds. This is why the final `return 'tap'` is unreachable. |
| AngleKey.BucketsAreCentred | components/CustomKey.tsx:27-34 | On [-180, 180] each bucket test is the half-open interval [centre - 22.5, centre + 22.5) around its swipe's centre, with angles below -157.5° moved up by 360° so the leftward bucket is one interval. |
| AngleKey.SwipeDirectionIsTheCentredBucket | components/CustomKey.tsx:22-36 | Past the threshold and on [-180, 180], the classifier answers s if and only if the angle lies in s's centred bucket. |
| AngleKey.BoundaryAngles | components/CustomKey.tsx:27-34 | Each boundary belongs to the bucket above it: 22.5° gives swipeDownRight, -22.5° gives swipeRight and -157.5° gives swipeUpLeft. 157.5°, 180° and -180° give swipeLeft. |
| AngleKey.SelectedChar | components/CustomKey.tsx:52-57 | On a tap the result is the label. Otherwise it is the mapped character when the mapping has a non-empty one for the swipe, and the label when the mapping is absent, has no entry or has an empty one. |
| AngleKey.ReleaseChar | components/CustomKey.tsx:46-58 | A drag under 20 px on both axes hands the label to onKeyPress. Any other result is the label or a non-empty value of the mapping. |
| AngleKey.NoUpperCasing | components/CustomKey.tsx:52-58 | Nothing is upper-cased. For any label, any non-empty mapped value v and any drag past 20 px at an angle in [-22.5, 22.5), a key mapping swipeRight to v hands over exactly v. A key without a mapping hands over exactly its label. |

## Left out

- AngleKey.SwipeDirection: the angle `atan2(dy, dx) * 180 / π` is an input, not computed from dx and dy. Trigonometry on floating point is not modelled. The bucket properties are stated for angles in [-180, 180], the range of the degree-converted atan2. -180 arises when dy is a negative zero and dx is negative.
- SwipeKeyboard.SwipeDirection and AngleKey.SwipeDirection: NaN and infinite displacements are not modelled, because reals have no such values.
- Text.ToUpper: only the ASCII letters a-z are upper-cased. JavaScript's full Unicode case mapping (ß becoming SS, for instance) is not modelled, and every character of this keyboard is ASCII.
- Rendering is not modelled: the screen-height sizing, styles, the letters drawn at the key's edges (components/CustomKeyboard.tsx:155-208) and the trail circle's drawing. Only the trail's position is kept.
- The close, backspace and enter buttons are not modelled. They forward to the host's onClose, onBackspace and onEnter callbacks and compute nothing.
- The always-true responder callbacks (`onStartShouldSetPanResponder`, `onPanResponderTerminationRequest`) are not modelled. They are framework wiring.
- SwipeKeyboard.CustomKey: the `useRef` closure captures the props of the first render. The model fixes the key's definition at construction, so a key whose definition changes between renders is not modelled. Neither is what happens on the switch between digit and letter keys.
- SwipeKeyboard.Keyboard.ToggleNumLock, SwipeKeyboard.Keyboard.PressSpace and SwipeKeyboard.Keyboard.PressDigit: hook bookkeeping is not modelled. `CustomKey` returns early for a digit key (components/CustomKeyboard.tsx:93-102), before the hooks of a letter key (lines 106-110), which breaks React's rules of hooks. The keys keep their positions (`key={index}`, line 296), so a letter key's trail and responder are dropped on the toggle (line 342) and created anew on the way back.
- AngleKey.ReleaseChar: `CustomKey.tsx` builds its responder inside `useRef(PanResponder.create(...))` (components/CustomKey.tsx:43-61), so the release handler keeps the `label`, `mapping` and `onKeyPress` of the first render. The `keyLabel` and `mapping` parameters stand for those first-render props; a label or mapping changed by a later render is not modelled.
- The callbacks `onPress` and `onKeyPress` are modelled as appending to a recorded sequence (`presses`, `typed`). `AngleKey.ReleaseChar` returns the character instead of calling `onKeyPress`.
- The Android keyboard service is not part of this model; it is a stub.
- `app/(tabs)/index.tsx` is a demo host for `CustomKeyboard` and is not part of this model. `app/(tabs)/explore.tsx` is a settings page that saves colours and `godMode` to AsyncStorage; the modelled components never read those settings, so they are not part of this model.
