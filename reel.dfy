/**
 * The reel of `ReelComponent`: a drum of twelve segments, 30 degrees apart,
 * showing the values of its range. Dragging vertically turns it in
 * proportion to the pointer's travel since the drag began; releasing snaps
 * it to the nearest segment and, 150 ms later, emits the value of the segment
 * that faces the player. Each segment's brightness falls off with its
 * angular distance from the front.
 *
 * Pointer positions, clock readings and rotations are exact reals here.
 */
module Reel {
  import opened Wrappers
  import opened JsMath

  /** `segmentCount`: the number of segments on the drum. */
  const SegmentCount := 12

  /** `angleStep`: the angle between two neighbouring segments, in degrees. */
  const AngleStep := 30.0

  /** The degrees of rotation per unit of vertical pointer travel. */
  const Sensitivity := 0.42

  /** One label of the drum: a number of the range, or the text `'0'` of an empty reel. */
  datatype Slot = Number(value: int) | Text(text: string)

  /**
   * `displayNumbers`: twelve labels. An empty range shows `'0'` everywhere;
   * otherwise segment `i` shows `range[i % range.length]`, so the range is
   * laid out from segment 0 and repeated round the drum.
   */
  function DisplayNumbers(range: seq<int>): (slots: seq<Slot>)
    ensures |slots| == SegmentCount
    ensures range == [] ==> forall i :: 0 <= i < |slots| ==> slots[i] == Text("0")
    ensures range != [] ==> forall i :: 0 <= i < |slots| ==> slots[i].Number? && slots[i].value in range
    ensures forall i :: 0 <= i < |slots| && i < |range| ==> slots[i] == Number(range[i])
    ensures range != [] ==> forall i, j :: 0 <= j < i < |slots| && i == j + |range| ==> slots[i] == slots[j]
  {
    if range == [] then seq(SegmentCount, _ => Text("0"))
    else seq(SegmentCount, i requires 0 <= i => Number(range[CycleIndex(i, |range|)]))
  }

  /** `i % n` for a positive `n`, counted off one lap of `n` at a time. */
  function CycleIndex(i: nat, n: nat): (k: nat)
    requires n > 0
    ensures k < n
    ensures i < n ==> k == i
    decreases i
  {
    if i < n then i else CycleIndex(i - n, n)
  }

  /** Counting off laps gives JavaScript's, and Dafny's, remainder. */
  lemma {:induction false} CycleIndexIsRemainder(i: nat, n: nat)
    requires n > 0
    ensures CycleIndex(i, n) == i % n
    decreases i
  {
    if i >= n {
      CycleIndexIsRemainder(i - n, n);
      ModShift(i - n, n);
    }
  }

  /** A positive number times a positive whole number is at least the number. */
  lemma MulPos(n: int, k: int)
    requires n > 0 && k >= 1
    ensures n * k >= n
  {
    assert n * k == n * (k - 1) + n;
    assert n * (k - 1) >= 0;
  }

  /** The only multiple of a positive n strictly between -n and n is zero. */
  lemma ZeroFactor(n: int, k: int)
    requires n > 0 && -n < n * k < n
    ensures k == 0
  {
    if k >= 1 {
      MulPos(n, k);
    } else if k <= -1 {
      MulPos(n, -k);
    }
  }

  /** The remainder is the one value in [0, n) that differs from `a` by a multiple of n. */
  lemma ModUnique(a: int, n: int, q: int, r: int)
    requires 0 < n && 0 <= r < n && a == n * q + r
    ensures a % n == r
  {
    var q', r' := a / n, a % n;
    assert a == n * q' + r';
    assert n * (q - q') == n * q - n * q';
    ZeroFactor(n, q - q');
  }

  /** Adding the divisor does not change the remainder. */
  lemma ModShift(a: int, n: int)
    requires 0 <= a && 0 < n
    ensures (a + n) % n == a % n
  {
    var q, r := a / n, a % n;
    assert a + n == n * (q + 1) + r;
    ModUnique(a + n, n, q + 1, r);
  }

  /** The rotation a drag gives: the rotation at the start plus 0.42 degrees per unit the pointer went up. */
  function DragRotation(startRotation: real, startY: real, y: real): (rotation: real)
    ensures y == startY ==> rotation == startRotation
    ensures y < startY <==> rotation > startRotation
    ensures rotation - startRotation == Sensitivity * (startY - y)
  {
    startRotation + -(y - startY) * Sensitivity
  }

  /** `snappedAngle`: the rotation rounded to a whole number of segments. */
  function SnapAngle(rotation: real): (snapped: real)
    ensures IsMultipleOf(snapped, AngleStep)
    ensures Abs(snapped - rotation) <= AngleStep / 2.0
    ensures Abs(snapped - rotation) == AngleStep / 2.0 ==> snapped > rotation
  {
    var n := Round(rotation / AngleStep);
    assert (n as real * AngleStep) / AngleStep == n as real;
    n as real * AngleStep
  }

  /** No whole number of segments lies closer to the rotation than the snapped angle. */
  lemma SnapIsNearest(rotation: real, k: int)
    ensures Abs(SnapAngle(rotation) - rotation) <= Abs(k as real * AngleStep - rotation)
  {
    var n := Round(rotation / AngleStep);
    assert SnapAngle(rotation) == n as real * AngleStep;
    if k != n {
      assert k <= n - 1 || k >= n + 1;
    }
  }

  /** A rotation already on a segment does not move when snapped. */
  lemma SnapIdempotent(rotation: real)
    ensures SnapAngle(SnapAngle(rotation)) == SnapAngle(rotation)
  {
    var s := SnapAngle(rotation);
    var n := (s / AngleStep).Floor;
    assert s == n as real * AngleStep;
    assert s / AngleStep == n as real;
    assert Round(s / AngleStep) == n;
  }

  /**
   * `index`: the segment facing the player once the drum is at `snapped`,
   * `(Math.round(-snapped / 30) % 12 + 12) % 12`. JavaScript's `%` keeps the
   * sign of the dividend; adding 12 before the second `%` makes the result
   * the least non-negative residue.
   */
  function SelectedIndex(snapped: real): (index: int)
    ensures 0 <= index < SegmentCount
    ensures index == Round(-snapped / AngleStep) % SegmentCount
  {
    JsRem12(JsRem12(Round(-snapped / AngleStep)) + SegmentCount)
  }

  /**
   * The value the 150 ms settle callback emits for `index`: nothing for an
   * empty range, otherwise `range[index % range.length]`.
   */
  function Emission(range: seq<int>, index: nat): (emitted: Option<int>)
    ensures emitted.Some? <==> range != []
    ensures emitted.Some? ==> emitted.value in range
    ensures index < |range| ==> emitted == Some(range[index])
  {
    if |range| > 0 then Some(range[index % |range|]) else None
  }

  /** The value emitted for a segment is the number that segment shows. */
  lemma EmissionMatchesDisplay(range: seq<int>, index: nat)
    requires range != [] && index < SegmentCount
    ensures Emission(range, index) == Some(DisplayNumbers(range)[index].value)
  {
    CycleIndexIsRemainder(index, |range|);
  }

  /**
   * `getAngularDist`: how far, in degrees, segment `index` is from the front
   * when the drum is at `rotation`: `(rotation + 30 * index) % 360`, brought
   * into [-180, 180] and made non-negative.
   */
  function AngularDist(rotation: real, index: int): (dist: real)
    ensures 0.0 <= dist <= 180.0
    ensures var x := rotation + index as real * AngleStep;
      IsMultipleOf(x - dist, 360.0) || IsMultipleOf(x + dist, 360.0)
  {
    var x := rotation + index as real * AngleStep;
    var d0 := JsRem360(x);
    var d1 := if d0 < -180.0 then d0 + 360.0 else d0;
    var d2 := if d1 > 180.0 then d1 - 360.0 else d1;
    TurnNeighbours(x - d0);
    assert x - (d0 + 360.0) == (x - d0) - 360.0 && x - (d0 - 360.0) == (x - d0) + 360.0;
    Abs(d2)
  }

  /** One turn more or less than a whole number of turns is still a whole number of turns. */
  lemma TurnNeighbours(y: real)
    requires IsMultipleOf(y, 360.0)
    ensures IsMultipleOf(y - 360.0, 360.0) && IsMultipleOf(y + 360.0, 360.0)
  {
    var q := (y / 360.0).Floor;
    assert y / 360.0 == q as real;
    assert (y - 360.0) / 360.0 == (q - 1) as real;
    assert (y + 360.0) / 360.0 == (q + 1) as real;
  }

  /** The angular distance is the distance to the nearest whole turn. */
  lemma AngularDistMinimal(rotation: real, index: int, k: int)
    ensures AngularDist(rotation, index) <= Abs(rotation + index as real * AngleStep - k as real * 360.0)
  {
    var x := rotation + index as real * AngleStep;
    var d := AngularDist(rotation, index);
    if IsMultipleOf(x - d, 360.0) {
      var q := ((x - d) / 360.0).Floor;
      assert x - d == q as real * 360.0;
      if q != k {
        assert q <= k - 1 || q >= k + 1;
      }
    } else {
      var q := ((x + d) / 360.0).Floor;
      assert x + d == q as real * 360.0;
      if q != k {
        assert q <= k - 1 || q >= k + 1;
      }
    }
  }

  /** After a snap, the selected segment faces the player exactly. */
  lemma SelectedSegmentCentred(rotation: real)
    requires IsMultipleOf(rotation, AngleStep)
    ensures AngularDist(rotation, SelectedIndex(rotation)) == 0.0
  {
    var n := OnGrid(rotation);
    var index := SelectedIndex(rotation);
    var t := Complement(n);
    assert rotation + index as real * AngleStep == t as real * 360.0;
    WholeTurns(rotation + index as real * AngleStep, t);
  }

  /** Adding its residue `-n` modulo 12 to `n` makes a whole number of laps. */
  lemma Complement(n: int) returns (t: int)
    ensures n + (-n) % SegmentCount == SegmentCount * t
  {
    t := (n + (-n) % SegmentCount) / SegmentCount;
  }

  /** A whole number of turns leaves no remainder. */
  lemma WholeTurns(x: real, t: int)
    requires x == t as real * 360.0
    ensures JsRem360(x) == 0.0
  {
    assert x / 360.0 == t as real;
    assert Trunc(x / 360.0) == t;
  }

  /** After a snap, every other segment is at least one segment's angle away from the front. */
  lemma OtherSegmentsAway(rotation: real, j: int)
    requires IsMultipleOf(rotation, AngleStep)
    requires 0 <= j < SegmentCount && j != SelectedIndex(rotation)
    ensures AngularDist(rotation, j) >= AngleStep
  {
    var n := OnGrid(rotation);
    OtherResidue(n, j);
    assert rotation + j as real * AngleStep == (n + j) as real * AngleStep;
    GridDistance(n + j, AngularDist(rotation, j));
  }

  /** Only the residue `-n` modulo 12 brings `n` to a whole number of laps. */
  lemma OtherResidue(n: int, j: int)
    requires 0 <= j < SegmentCount && j != (-n) % SegmentCount
    ensures (n + j) % SegmentCount != 0
  {
  }

  /** A rotation on a segment is `n` segments, and the segment facing the player is `-n` modulo 12. */
  lemma OnGrid(rotation: real) returns (n: int)
    requires IsMultipleOf(rotation, AngleStep)
    ensures rotation == n as real * AngleStep
    ensures SelectedIndex(rotation) == (-n) % SegmentCount
  {
    n := (rotation / AngleStep).Floor;
    assert rotation == n as real * AngleStep;
    assert -rotation / AngleStep == (-n) as real;
    assert Round(-rotation / AngleStep) == -n;
  }

  /**
   * A distance `d` that takes `m` segments to a whole number of turns is at
   * least one segment, unless `m` is itself a whole number of turns.
   */
  lemma GridDistance(m: int, d: real)
    requires 0.0 <= d
    requires var x := m as real * AngleStep; IsMultipleOf(x - d, 360.0) || IsMultipleOf(x + d, 360.0)
    ensures m % SegmentCount != 0 ==> d >= AngleStep
  {
    var x := m as real * AngleStep;
    var q: int;
    if IsMultipleOf(x - d, 360.0) {
      q := ((x - d) / 360.0).Floor;
      assert x - d == q as real * 360.0;
      assert d == (m - SegmentCount * q) as real * AngleStep;
    } else {
      q := ((x + d) / 360.0).Floor;
      assert x + d == q as real * 360.0;
      assert d == (SegmentCount * q - m) as real * AngleStep;
    }
    if m % SegmentCount != 0 {
      assert m != SegmentCount * q;
    }
  }

  /**
   * `getOpacity`: full brightness within 15 degrees of the front, then
   * `max(0, 1 - dist / 110)` up to 95 degrees, and dark beyond.
   */
  function Opacity(dist: real): (opacity: real)
    ensures 0.0 <= opacity <= 1.0
    ensures dist < 15.0 <==> opacity == 1.0
    ensures dist >= 95.0 ==> opacity == 0.0
  {
    if dist < 15.0 then 1.0
    else if dist < 95.0 then (if 1.0 - dist / 110.0 > 0.0 then 1.0 - dist / 110.0 else 0.0)
    else 0.0
  }

  /** Brightness never increases with distance from the front. */
  lemma OpacityNonIncreasing(d1: real, d2: real)
    requires d1 <= d2
    ensures Opacity(d2) <= Opacity(d1)
  {
  }

  /** After a snap, a segment is at full brightness if and only if it is the selected one. */
  lemma OnlySelectedLit(rotation: real, j: int)
    requires IsMultipleOf(rotation, AngleStep) && 0 <= j < SegmentCount
    ensures Opacity(AngularDist(rotation, j)) == 1.0 <==> j == SelectedIndex(rotation)
  {
    if j == SelectedIndex(rotation) {
      SelectedSegmentCentred(rotation);
    } else {
      OtherSegmentsAway(rotation, j);
    }
  }

  /**
   * What the player sees is what the reel reports: once the drum rests on a
   * segment, the segment the settle callback emits for is the one at the
   * front, fully lit, and the value emitted is the number it shows.
   */
  lemma SettledValueIsShown(range: seq<int>, rotation: real)
    requires IsMultipleOf(rotation, AngleStep) && range != []
    ensures var index := SelectedIndex(rotation);
      && AngularDist(rotation, index) == 0.0
      && Opacity(AngularDist(rotation, index)) == 1.0
      && Emission(range, index as nat) == Some(DisplayNumbers(range)[index].value)
  {
    SelectedSegmentCentred(rotation);
    EmissionMatchesDisplay(range, SelectedIndex(rotation) as nat);
  }

  /**
   * The reel's state: its two inputs, the drag in progress, the rotation and
   * speed of the drum, and the settle callbacks scheduled and not yet run
   * (each holds the segment index it will emit for).
   */
  class ReelController {
    var range: seq<int>
    var isWinning: bool
    var isDragging: bool
    var currentRotation: real
    var velocity: real
    var lastY: real
    var startY: real
    var startRotation: real
    var lastTimestamp: real
    /** The `setTimeout` settle callbacks of `snapToNearest` not yet run. */
    var pending: seq<nat>

    /**
     * The reel invariant: the speed is never negative, a drum at rest sits
     * exactly on a segment, and every scheduled callback holds a segment index.
     */
    ghost predicate Valid()
      reads this
    {
      && velocity >= 0.0
      && (!isDragging ==> IsMultipleOf(currentRotation, AngleStep))
      && (forall k :: 0 <= k < |pending| ==> pending[k] < SegmentCount)
    }

    /** The field initialisers: an empty range, not winning, at rest at 0 degrees. */
    constructor()
      ensures Valid()
      ensures range == [] && !isWinning && !isDragging
      ensures currentRotation == 0.0 && velocity == 0.0 && pending == []
      ensures lastY == 0.0 && startY == 0.0 && startRotation == 0.0 && lastTimestamp == 0.0
    {
      range := [];
      isWinning := false;
      isDragging := false;
      currentRotation := 0.0;
      velocity := 0.0;
      lastY := 0.0;
      startY := 0.0;
      startRotation := 0.0;
      lastTimestamp := 0.0;
      pending := [];
    }

    /** The `range` input receiving a new value from the parent. */
    method SetRange(r: seq<int>)
      requires Valid()
      modifies this`range
      ensures Valid() && range == r
    {
      range := r;
    }

    /** The `isWinning` input receiving a new value from the parent. */
    method SetWinning(w: bool)
      requires Valid()
      modifies this`isWinning
      ensures Valid() && isWinning == w
    {
      isWinning := w;
    }

    /**
     * `onDragStart` at pointer height `y` and clock reading `now`: ignored
     * while the reel is winning; otherwise the drag begins here, from the
     * current rotation.
     */
    method OnDragStart(y: real, now: real)
      requires Valid()
      modifies this`isDragging, this`startY, this`lastY, this`startRotation, this`lastTimestamp
      ensures Valid()
      ensures old(isWinning) ==> unchanged(this)
      ensures !old(isWinning) ==>
        && isDragging && startY == y && lastY == y && lastTimestamp == now
        && startRotation == currentRotation
    {
      if isWinning {
        return;
      }
      isDragging := true;
      startY := y;
      lastY := y;
      startRotation := currentRotation;
      lastTimestamp := now;
    }

    /**
     * `onMove` at pointer height `y` and clock reading `now`: ignored without
     * a drag; otherwise the speed becomes `|dy / dt|` when time has passed,
     * the rotation follows the travel since the drag began, and the last
     * reading is recorded.
     */
    method OnMove(y: real, now: real)
      requires Valid()
      modifies this`velocity, this`currentRotation, this`lastY, this`lastTimestamp
      ensures Valid()
      ensures !old(isDragging) ==> unchanged(this)
      ensures old(isDragging) ==>
        && velocity == (if now - old(lastTimestamp) > 0.0 then Abs((y - old(lastY)) / (now - old(lastTimestamp))) else old(velocity))
        && currentRotation == DragRotation(startRotation, startY, y)
        && lastY == y && lastTimestamp == now
    {
      if !isDragging {
        return;
      }
      var dt := now - lastTimestamp;
      var dy := y - lastY;
      if dt > 0.0 {
        velocity := Abs(dy / dt);
      }
      currentRotation := DragRotation(startRotation, startY, y);
      lastY := y;
      lastTimestamp := now;
    }

    /**
     * `onEnd`: ignored without a drag; otherwise the drag ends, the drum
     * stops and snaps to the nearest segment.
     */
    method OnEnd()
      requires Valid()
      modifies this`isDragging, this`velocity, this`currentRotation, this`pending
      ensures Valid()
      ensures !old(isDragging) ==> unchanged(this)
      ensures old(isDragging) ==>
        && !isDragging && velocity == 0.0
        && currentRotation == SnapAngle(old(currentRotation))
        && pending == old(pending) + [SelectedIndex(currentRotation) as nat]
    {
      if !isDragging {
        return;
      }
      isDragging := false;
      velocity := 0.0;
      SnapToNearest();
    }

    /**
     * `snapToNearest`: the drum moves to the nearest whole segment and a
     * settle callback is scheduled for the segment now facing the player.
     */
    method SnapToNearest()
      requires velocity >= 0.0 && (forall k :: 0 <= k < |pending| ==> pending[k] < SegmentCount)
      modifies this`currentRotation, this`pending
      ensures IsMultipleOf(currentRotation, AngleStep)
      ensures velocity >= 0.0 && (forall k :: 0 <= k < |pending| ==> pending[k] < SegmentCount)
      ensures currentRotation == SnapAngle(old(currentRotation))
      ensures pending == old(pending) + [SelectedIndex(currentRotation) as nat]
    {
      var snapped := SnapAngle(currentRotation);
      currentRotation := snapped;
      var index := SelectedIndex(snapped);
      pending := pending + [index as nat];
    }

    /**
     * The settle callback `k` running: it reads the range as it is now and
     * emits the value for its segment, or nothing when the range is empty.
     */
    method FireSettle(k: nat) returns (emitted: Option<int>)
      requires Valid() && k < |pending|
      modifies this`pending
      ensures Valid()
      ensures emitted == Emission(range, old(pending)[k])
      ensures pending == RemoveAt(old(pending), k)
    {
      emitted := Emission(range, pending[k]);
      pending := RemoveAt(pending, k);
    }
  }

  /**
   * One whole gesture: a press at height `y0`, the pointer moves of `moves`
   * (each a height and a clock reading), and the release. The drum ends on
   * the segment nearest to the rotation the total travel gives, so a pointer
   * released where it was pressed leaves the drum where it was.
   */
  method DragGesture(reel: ReelController, y0: real, t0: real, moves: seq<(real, real)>)
    requires reel.Valid() && !reel.isWinning && !reel.isDragging
    modifies reel
    ensures reel.Valid() && !reel.isDragging
    ensures var lastY := if moves == [] then y0 else moves[|moves| - 1].0;
      reel.currentRotation == SnapAngle(DragRotation(old(reel.currentRotation), y0, lastY))
    ensures (moves == [] || moves[|moves| - 1].0 == y0) ==> reel.currentRotation == old(reel.currentRotation)
    ensures reel.pending == old(reel.pending) + [SelectedIndex(reel.currentRotation) as nat]
    ensures reel.velocity == 0.0
    ensures reel.range == old(reel.range) && reel.isWinning == old(reel.isWinning)
  {
    ghost var start := reel.currentRotation;
    reel.OnDragStart(y0, t0);
    var i := 0;
    while i < |moves|
      invariant 0 <= i <= |moves|
      invariant reel.Valid() && reel.isDragging
      invariant reel.startRotation == start && reel.startY == y0
      invariant reel.currentRotation == DragRotation(start, y0, if i == 0 then y0 else moves[i - 1].0)
      invariant reel.pending == old(reel.pending)
      invariant reel.range == old(reel.range) && reel.isWinning == old(reel.isWinning)
    {
      reel.OnMove(moves[i].0, moves[i].1);
      i := i + 1;
    }
    reel.OnEnd();
    SnapIdempotent(start);
    var n := (start / AngleStep).Floor;
    assert start == n as real * AngleStep;
    assert Round(start / AngleStep) == n;
  }
}
