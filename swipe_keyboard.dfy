/**
 * The keyboard of components/CustomKeyboard.tsx: a 3×3 grid of letter keys, each
 * emitting its big letter on a tap and up to eight more letters on swipes, a numeric
 * mode toggled by a lock button, and a space bar.
 *
 * Drag displacements are JavaScript numbers; they are modelled as reals (comparisons
 * and absolute values are exact on them). Screen coordinates: dx grows to the right,
 * dy grows downwards, so an upward swipe has a negative dy.
 */
module SwipeKeyboard {
  import opened Optional
  import opened Reals
  import opened Text

  /** Displacement, in pixels, under which a drag along both axes is a tap. */
  const SwipeThreshold: real := 30.0

  /** The names returned by getSwipeDirection. */
  datatype Direction =
    | Tap | TopUp | TopRight | RightSide | BottomRight
    | BottomDown | BottomLeft | LeftSide | TopLeft

  /** The directions that lean towards the top of the key. */
  predicate Upward(d: Direction) {
    d == TopUp || d == TopRight || d == TopLeft
  }

  /** The directions that lean towards the bottom of the key. */
  predicate Downward(d: Direction) {
    d == BottomDown || d == BottomRight || d == BottomLeft
  }

  /** The directions that lean towards the right of the key. */
  predicate Rightward(d: Direction) {
    d == TopRight || d == RightSide || d == BottomRight
  }

  /** The directions that lean towards the left of the key. */
  predicate Leftward(d: Direction) {
    d == TopLeft || d == LeftSide || d == BottomLeft
  }

  /**
   * getSwipeDirection: classifies the drag (dx, dy) of one gesture.
   * The contract gives the meaning of every outcome: when a drag is a tap, and which
   * side of the key, and which dominant axis, each of the eight swipes stands for.
   */
  function SwipeDirection(dx: real, dy: real): (d: Direction)
    // a tap is a drag under the threshold on both axes, or the |dy| == 30 fallthrough
    ensures d == Tap <==>
      (Abs(dx) < SwipeThreshold && Abs(dy) < SwipeThreshold)
      || (Abs(dy) == SwipeThreshold && Abs(dx) >= SwipeThreshold)
    // the side of the key each swipe names is the side the finger moved to
    ensures Upward(d) ==> dy < 0.0
    ensures Downward(d) ==> dy > 0.0
    ensures Rightward(d) ==> dx > 0.0
    ensures Leftward(d) ==> dx < 0.0
    // a corner swipe is strictly more horizontal than vertical, and past the threshold vertically
    ensures d in {TopRight, TopLeft, BottomRight, BottomLeft} ==>
      Abs(dx) > Abs(dy) > SwipeThreshold
    // a side swipe is past the threshold horizontally and under it vertically
    ensures d in {RightSide, LeftSide} ==> Abs(dx) >= SwipeThreshold > Abs(dy)
    // a straight up or down swipe is at least as vertical as it is horizontal
    ensures d in {TopUp, BottomDown} ==> Abs(dy) >= SwipeThreshold && Abs(dy) >= Abs(dx)
  {
    if Abs(dx) < SwipeThreshold && Abs(dy) < SwipeThreshold then Tap
    else if dx > 0.0 && dy < -SwipeThreshold then
      (if Abs(dx) > Abs(dy) then TopRight else TopUp)
    else if dx < 0.0 && dy < -SwipeThreshold then
      (if Abs(dx) > Abs(dy) then TopLeft else TopUp)
    else if dx > 0.0 && dy > SwipeThreshold then
      (if Abs(dx) > Abs(dy) then BottomRight else BottomDown)
    else if dx < 0.0 && dy > SwipeThreshold then
      (if Abs(dx) > Abs(dy) then BottomLeft else BottomDown)
    else if Abs(dx) >= SwipeThreshold && Abs(dy) < SwipeThreshold then
      (if dx > 0.0 then RightSide else LeftSide)
    else if Abs(dy) >= SwipeThreshold && Abs(dx) < SwipeThreshold then
      (if dy > 0.0 then BottomDown else TopUp)
    else Tap
  }

  /**
   * The outcome of the classifier region by region: small drags, the four diagonal
   * quadrants (ties going to the vertical label), the horizontal and the vertical band.
   */
  lemma SwipeDirectionRegions(dx: real, dy: real)
    ensures Abs(dx) < SwipeThreshold && Abs(dy) < SwipeThreshold ==> SwipeDirection(dx, dy) == Tap
    ensures dy < -SwipeThreshold && dx != 0.0 ==>
      SwipeDirection(dx, dy)
        == (if Abs(dx) > Abs(dy) then (if dx > 0.0 then TopRight else TopLeft) else TopUp)
    ensures dy > SwipeThreshold && dx != 0.0 ==>
      SwipeDirection(dx, dy)
        == (if Abs(dx) > Abs(dy) then (if dx > 0.0 then BottomRight else BottomLeft) else BottomDown)
    ensures Abs(dx) >= SwipeThreshold && Abs(dy) < SwipeThreshold ==>
      SwipeDirection(dx, dy) == (if dx > 0.0 then RightSide else LeftSide)
    ensures Abs(dy) >= SwipeThreshold && Abs(dx) < SwipeThreshold ==>
      SwipeDirection(dx, dy) == (if dy > 0.0 then BottomDown else TopUp)
  {
  }

  /** A drag along an exact 45° diagonal never yields a corner swipe. */
  lemma DiagonalDragIsNeverCorner(dx: real, dy: real)
    requires Abs(dx) == Abs(dy)
    ensures SwipeDirection(dx, dy) in {Tap, TopUp, BottomDown}
  {
  }

  /** The direction seen in a mirror held along the vertical axis: left and right swap. */
  function MirrorLeftRight(d: Direction): Direction {
    match d
    case TopRight => TopLeft
    case TopLeft => TopRight
    case RightSide => LeftSide
    case LeftSide => RightSide
    case BottomRight => BottomLeft
    case BottomLeft => BottomRight
    case _ => d
  }

  /** The direction seen in a mirror held along the horizontal axis: top and bottom swap. */
  function MirrorTopBottom(d: Direction): Direction {
    match d
    case TopUp => BottomDown
    case BottomDown => TopUp
    case TopRight => BottomRight
    case BottomRight => TopRight
    case TopLeft => BottomLeft
    case BottomLeft => TopLeft
    case _ => d
  }

  /** The classifier treats left and right, and top and bottom, alike. */
  lemma SwipeDirectionIsSymmetric(dx: real, dy: real)
    ensures SwipeDirection(-dx, dy) == MirrorLeftRight(SwipeDirection(dx, dy))
    ensures SwipeDirection(dx, -dy) == MirrorTopBottom(SwipeDirection(dx, dy))
  {
  }

  // ------------------------------------------------------------------
  // Key definitions

  /** MappingPositions: the optional letter shown at, and emitted by a swipe towards, each edge. */
  datatype Positions = Positions(
    topUp: Option<string>, topRight: Option<string>, rightSide: Option<string>,
    bottomRight: Option<string>, bottomDown: Option<string>, bottomLeft: Option<string>,
    leftSide: Option<string>, topLeft: Option<string>)

  /** A mapping with no entry at all (`{}`). */
  const NoPositions := Positions(None, None, None, None, None, None, None, None)

  /** `mapping[direction]`; a tap names no field. */
  function Entry(m: Positions, d: Direction): Option<string> {
    match d
    case Tap => None
    case TopUp => m.topUp
    case TopRight => m.topRight
    case RightSide => m.rightSide
    case BottomRight => m.bottomRight
    case BottomDown => m.bottomDown
    case BottomLeft => m.bottomLeft
    case LeftSide => m.leftSide
    case TopLeft => m.topLeft
  }

  /** KeyDefinition: the big letter and an optional mapping. */
  datatype KeyDefinition = KeyDefinition(bigLetter: string, mapping: Option<Positions>)

  /** `direction !== 'tap' && mapping && mapping[direction]`: a non-empty entry overrides the big letter. */
  predicate Overrides(k: KeyDefinition, d: Direction) {
    d != Tap && k.mapping.Some? && Entry(k.mapping.value, d).Some?
    && Entry(k.mapping.value, d).value != ""
  }

  /**
   * The character a letter key hands to onPress when a gesture ends in direction d.
   * It is always upper case; it is the key's own mapped letter for d when there is one,
   * and the big letter on a tap, with no mapping, with no entry for d, or with an
   * empty entry.
   */
  function OutputChar(k: KeyDefinition, d: Direction): (c: string)
    ensures IsUpperCase(c)
    ensures c == ToUpper(k.bigLetter)
         || (k.mapping.Some? && Entry(k.mapping.value, d).Some?
             && c == ToUpper(Entry(k.mapping.value, d).value))
    ensures d == Tap ==> c == ToUpper(k.bigLetter)
    ensures k.mapping.None? ==> c == ToUpper(k.bigLetter)
    ensures k.mapping.Some? && Entry(k.mapping.value, d) in {None, Some("")} ==>
      c == ToUpper(k.bigLetter)
    ensures Overrides(k, d) ==> c == ToUpper(Entry(k.mapping.value, d).value)
  {
    if Overrides(k, d) then ToUpper(Entry(k.mapping.value, d).value) else ToUpper(k.bigLetter)
  }

  /** The nine letter keys, row-major (A N I / H O R / T E S). */
  const LetterKeys: seq<KeyDefinition> := [
    KeyDefinition("A", Some(NoPositions.(bottomRight := Some("V")))),
    KeyDefinition("N", Some(NoPositions.(bottomDown := Some("L")))),
    KeyDefinition("I", Some(NoPositions.(bottomLeft := Some("X")))),
    KeyDefinition("H", Some(NoPositions.(leftSide := Some("K")))),
    KeyDefinition("O", Some(Positions(
      topUp := Some("U"), topRight := Some("P"), rightSide := Some("C"),
      bottomRight := Some("J"), bottomDown := Some("D"), bottomLeft := Some("G"),
      leftSide := Some("B"), topLeft := Some("Q")))),
    KeyDefinition("R", Some(NoPositions.(leftSide := Some("M")))),
    KeyDefinition("T", Some(NoPositions.(topRight := Some("Y")))),
    KeyDefinition("E", Some(NoPositions.(topUp := Some("W"), rightSide := Some("Z")))),
    KeyDefinition("S", Some(NoPositions.(topLeft := Some("F"))))
  ]

  /** The digits shown in numeric mode. */
  const NumericKeys: seq<string> := ["1", "2", "3", "4", "5", "6", "7", "8", "9"]

  /** Key O: a straight upward drag gives U, a drag under the threshold gives O. */
  lemma KeyOScenario()
    ensures OutputChar(LetterKeys[4], SwipeDirection(0.0, -50.0)) == "U"
    ensures OutputChar(LetterKeys[4], SwipeDirection(5.0, 5.0)) == "O"
  {
    UpperCaseIsFixed("U");
    UpperCaseIsFixed("O");
  }

  /** A digit key hands its label, upper-cased, to onPress: each digit comes back unchanged. */
  lemma DigitKeysEmitTheirDigit(i: nat)
    requires i < |NumericKeys|
    ensures ToUpper(NumericKeys[i]) == NumericKeys[i]
  {
    UpperCaseIsFixed(NumericKeys[i]);
  }

  // ------------------------------------------------------------------
  // The letters of the table

  /** The entries of a mapping that are present, concatenated in field order. */
  function EntryText(m: Positions): string {
    (if m.topUp.Some? then m.topUp.value else "")
    + (if m.topRight.Some? then m.topRight.value else "")
    + (if m.rightSide.Some? then m.rightSide.value else "")
    + (if m.bottomRight.Some? then m.bottomRight.value else "")
    + (if m.bottomDown.Some? then m.bottomDown.value else "")
    + (if m.bottomLeft.Some? then m.bottomLeft.value else "")
    + (if m.leftSide.Some? then m.leftSide.value else "")
    + (if m.topLeft.Some? then m.topLeft.value else "")
  }

  /** Every letter a key carries: its big letter, then its mapping's entries. */
  function KeyText(k: KeyDefinition): string {
    k.bigLetter + (if k.mapping.Some? then EntryText(k.mapping.value) else "")
  }

  /** The letters of the keys from index j on, key after key. */
  function TableText(keys: seq<KeyDefinition>, j: nat): string
    decreases |keys| - j
  {
    if j >= |keys| then "" else KeyText(keys[j]) + TableText(keys, j + 1)
  }

  lemma LetterKeyTexts()
    ensures KeyText(LetterKeys[0]) == "AV" && KeyText(LetterKeys[1]) == "NL"
    ensures KeyText(LetterKeys[2]) == "IX" && KeyText(LetterKeys[3]) == "HK"
    ensures KeyText(LetterKeys[4]) == "OUPCJDGBQ" && KeyText(LetterKeys[5]) == "RM"
    ensures KeyText(LetterKeys[6]) == "TY" && KeyText(LetterKeys[7]) == "EWZ"
    ensures KeyText(LetterKeys[8]) == "SF"
  {
  }

  lemma TableTextStep(keys: seq<KeyDefinition>, j: nat, head: string, tail: string)
    requires j < |keys| && KeyText(keys[j]) == head && TableText(keys, j + 1) == tail
    ensures TableText(keys, j) == head + tail
  {
  }

  /** The letters of the letter table, key by key. */
  lemma LetterTableText()
    ensures TableText(LetterKeys, 0)
         == "AV" + ("NL" + ("IX" + ("HK" + ("OUPCJDGBQ" + ("RM" + ("TY" + ("EWZ" + ("SF" + ""))))))))
  {
    var keys := LetterKeys;
    LetterKeyTexts();
    assert TableText(keys, 9) == "";
    TableTextStep(keys, 8, "SF", "");
    TableTextStep(keys, 7, "EWZ", "SF" + "");
    TableTextStep(keys, 6, "TY", "EWZ" + ("SF" + ""));
    TableTextStep(keys, 5, "RM", "TY" + ("EWZ" + ("SF" + "")));
    TableTextStep(keys, 4, "OUPCJDGBQ", "RM" + ("TY" + ("EWZ" + ("SF" + ""))));
    TableTextStep(keys, 3, "HK", "OUPCJDGBQ" + ("RM" + ("TY" + ("EWZ" + ("SF" + "")))));
    TableTextStep(keys, 2, "IX", "HK" + ("OUPCJDGBQ" + ("RM" + ("TY" + ("EWZ" + ("SF" + ""))))));
    TableTextStep(keys, 1, "NL",
      "IX" + ("HK" + ("OUPCJDGBQ" + ("RM" + ("TY" + ("EWZ" + ("SF" + "")))))));
    TableTextStep(keys, 0, "AV",
      "NL" + ("IX" + ("HK" + ("OUPCJDGBQ" + ("RM" + ("TY" + ("EWZ" + ("SF" + ""))))))));
  }

  lemma Flattened(x: string)
    requires x == "AV" + ("NL" + ("IX" + ("HK" + ("OUPCJDGBQ" + ("RM" + ("TY" + ("EWZ" + ("SF" + ""))))))))
    ensures x == "AVNLIXHKOUPCJDGBQRMTYEWZSF"
  {
  }

  lemma LettersOfText(x: string)
    requires x == "AVNLIXHKOUPCJDGBQRMTYEWZSF"
    ensures forall c :: c in x <==> IsCapital(c)
  {
  }

  /**
   * Across the letter table, the big letters and the mapped letters are the 26 capital
   * letters, each exactly once.
   */
  lemma LetterTableCoversAlphabet()
    ensures |TableText(LetterKeys, 0)| == 26
    ensures forall c :: c in TableText(LetterKeys, 0) <==> IsCapital(c)
    ensures forall i, j :: 0 <= i < j < 26 ==> TableText(LetterKeys, 0)[i] != TableText(LetterKeys, 0)[j]
  {
    var text := TableText(LetterKeys, 0);
    LetterTableText();
    Flattened(text);
    LettersOfText(text);
    AlphabetIsTheCapitals();
    assert (set c | c in text) == (set c | c in Alphabet);
    NoRepeatWhenAllDistinct(text);
  }

  // ------------------------------------------------------------------
  // The grid: three rows of three keys

  /** `s.slice(start, end)` for non-negative bounds: both are clamped to the length of s. */
  function Slice<T>(s: seq<T>, start: nat, end: nat): (r: seq<T>)
    ensures start <= end ==> r == s[Min(start, |s|)..Min(end, |s|)]
    ensures end < start ==> r == []
  {
    var b := if start < |s| then start else |s|;
    var e := if end < b then b else if end < |s| then end else |s|;
    s[b..e]
  }

  /** The rows laid end to end, first row first. */
  function Concat<T>(rows: seq<seq<T>>): seq<T> {
    if rows == [] then [] else Concat(rows[..|rows| - 1]) + rows[|rows| - 1]
  }

  function Min(a: int, b: int): int {
    if a < b then a else b
  }

  /**
   * The loop of renderLeftSide: row r is `keys.slice(r * 3, r * 3 + 3)` for r = 0, 1, 2.
   * Laid end to end the rows give back the first nine keys in their order; a table
   * shorter than nine leaves the last rows short or empty.
   */
  method SplitRows<T>(keys: seq<T>) returns (rows: seq<seq<T>>)
    ensures |rows| == 3
    ensures Concat(rows) == keys[..Min(|keys|, 9)]
    ensures forall r :: 0 <= r < 3 ==> rows[r] == keys[Min(|keys|, 3 * r)..Min(|keys|, 3 * r + 3)]
  {
    rows := [];
    var row := 0;
    while row < 3
      invariant 0 <= row <= 3
      invariant |rows| == row
      invariant Concat(rows) == keys[..Min(|keys|, 3 * row)]
      invariant forall r :: 0 <= r < row ==> rows[r] == keys[Min(|keys|, 3 * r)..Min(|keys|, 3 * r + 3)]
    {
      var keysRow := Slice(keys, row * 3, row * 3 + 3);
      ghost var done, next := Min(|keys|, 3 * row), Min(|keys|, 3 * row + 3);
      assert keysRow == keys[done..next];
      assert keys[..next] == keys[..done] + keys[done..next];
      assert (rows + [keysRow])[..row] == rows;
      assert Concat(rows + [keysRow]) == Concat(rows) + keysRow;
      rows := rows + [keysRow];
      row := row + 1;
    }
  }

  /** In numeric mode a grid key is a bare digit string; otherwise a key definition. */
  datatype GridKey = Letter(def: KeyDefinition) | Digit(digit: string)

  /** The nine keys of the grid in the given mode. */
  function GridKeys(numLock: bool): (keys: seq<GridKey>)
    ensures |keys| == 9
  {
    if numLock then seq(9, i requires 0 <= i < 9 => Digit(NumericKeys[i]))
    else seq(9, i requires 0 <= i < 9 => Letter(LetterKeys[i]))
  }

  // ------------------------------------------------------------------
  // The state of one letter key and of the keyboard

  datatype Point = Point(x: real, y: real)

  /** Where the trail starts: near the centre of the key block. */
  const TrailOrigin := Point(35.0, 35.0)

  /**
   * A letter key (CustomKey given a KeyDefinition). It keeps the position of the trail
   * that follows the finger, absent between gestures, and records each character it
   * hands to onPress. A gesture is a grant, any number of moves, then a release or a
   * termination.
   */
  class CustomKey {
    const def: KeyDefinition
    var trail: Option<Point>
    var presses: seq<string>

    constructor (def: KeyDefinition)
      ensures this.def == def && trail == None && presses == []
    {
      this.def := def;
      trail := None;
      presses := [];
    }

    /** onPanResponderGrant: the trail appears at its origin. */
    method Grant()
      modifies this
      ensures trail == Some(TrailOrigin)
      ensures presses == old(presses)
    {
      trail := Some(TrailOrigin);
    }

    /** onPanResponderMove: the trail sits at the origin displaced by the drag so far. */
    method Move(dx: real, dy: real)
      modifies this
      ensures trail == Some(Point(TrailOrigin.x + dx, TrailOrigin.y + dy))
      ensures presses == old(presses)
    {
      trail := Some(Point(TrailOrigin.x + dx, TrailOrigin.y + dy));
    }

    /**
     * onPanResponderRelease: classifies the drag, hands exactly one character to onPress,
     * the one OutputChar gives, and clears the trail.
     */
    method Release(dx: real, dy: real) returns (ch: string)
      modifies this
      ensures ch == OutputChar(def, SwipeDirection(dx, dy))
      ensures presses == old(presses) + [ch]
      ensures trail == None
    {
      var direction := SwipeDirection(dx, dy);
      var outputChar := def.bigLetter;
      if direction != Tap && def.mapping.Some? && Entry(def.mapping.value, direction).Some?
         && Entry(def.mapping.value, direction).value != "" {
        // `mapping[direction] || bigLetter`: the entry is non-empty here
        outputChar := Entry(def.mapping.value, direction).value;
      }
      ch := ToUpper(outputChar);
      presses := presses + [ch];
      trail := None;
    }

    /** onPanResponderTerminate: the trail is cleared and nothing reaches onPress. */
    method Terminate()
      modifies this
      ensures trail == None
      ensures presses == old(presses)
    {
      trail := None;
    }
  }

  /**
   * The keyboard (CustomKeyboard): whether numeric mode is on, and the characters handed
   * to onKeyPress so far, in order.
   */
  class Keyboard {
    var numLock: bool
    var typed: seq<string>

    constructor ()
      ensures !numLock && typed == []
    {
      numLock := false;
      typed := [];
    }

    /** The #123 / ABC button flips numeric mode and types nothing. */
    method ToggleNumLock()
      modifies this
      ensures numLock == !old(numLock)
      ensures typed == old(typed)
    {
      numLock := !numLock;
    }

    /** The space bar types "0" in numeric mode and a space otherwise. */
    method PressSpace()
      modifies this
      ensures numLock == old(numLock)
      ensures typed == old(typed) + [if numLock then "0" else " "]
    {
      typed := typed + [if numLock then "0" else " "];
    }

    /** A key's onPress, wired straight to onKeyPress. */
    method KeyPress(ch: string)
      modifies this
      ensures numLock == old(numLock)
      ensures typed == old(typed) + [ch]
    {
      typed := typed + [ch];
    }

    /** A digit key of numeric mode types its digit string upper-cased. */
    method PressDigit(digit: string)
      modifies this
      ensures numLock == old(numLock)
      ensures typed == old(typed) + [ToUpper(digit)]
    {
      KeyPress(ToUpper(digit));
    }

    /** renderLeftSide: the grid of the current mode as three full rows, in table order. */
    method LeftSideRows() returns (rows: seq<seq<GridKey>>)
      ensures |rows| == 3
      ensures forall r :: 0 <= r < 3 ==> |rows[r]| == 3
      ensures Concat(rows) == GridKeys(numLock)
      ensures forall r, c :: 0 <= r < 3 && 0 <= c < 3 ==> rows[r][c] == GridKeys(numLock)[3 * r + c]
    {
      var keys := GridKeys(numLock);
      rows := SplitRows(keys);
      assert keys[..Min(|keys|, 9)] == keys;
    }
  }
}
