/** The slot table: standing slots laid out in concentric rings around a
    target, each holding a fixed offset, a tracked world position and the
    shared "assigned" flag that agents claim and release.

    Mathf.Sin and Mathf.Cos are not modelled: the caller supplies a `Trig`
    function giving the sine and cosine of an angle measured in turns (one
    turn is 2π radians), and coordinates are reals. */
module Positions {

  /** A world-space point or displacement (Unity's Vector3). */
  datatype Vec3 = Vec3(x: real, y: real, z: real)

  function Add(a: Vec3, b: Vec3): Vec3 { Vec3(a.x + b.x, a.y + b.y, a.z + b.z) }
  function Sub(a: Vec3, b: Vec3): Vec3 { Vec3(a.x - b.x, a.y - b.y, a.z - b.z) }
  function Scale(v: Vec3, k: real): Vec3 { Vec3(v.x * k, v.y * k, v.z * k) }

  /** Sine and cosine of one angle. */
  datatype Bearing = Bearing(sin: real, cos: real)

  /** Stands for (Mathf.Sin(2πt), Mathf.Cos(2πt)) of an angle of t turns. */
  type Trig = real -> Bearing

  /** Slots in the first ring; ring i holds InitialPositions * i slots. */
  const InitialPositions: nat := 8
  /** Ring i lies at radius i + RadiusSpacing from the target. */
  const RadiusSpacing: real := 0.5

  /** One standing slot (PositioningPoint). `ring` and `angularIndex` record
      where the generator placed it; the source keeps them only implicitly,
      through the slot's index in the table. */
  datatype Slot = Slot(ring: nat, angularIndex: nat, offset: Vec3, currentPos: Vec3, assignedStatus: bool)

  function RingSize(i: nat): nat { InitialPositions * i }

  /** Number of slots in rings 1..n. */
  function SlotCount(n: nat): nat
  {
    if n == 0 then 0 else SlotCount(n - 1) + RingSize(n)
  }

  /** The slot count in closed form: Σ 8·i for i = 1..n is 4·n·(n+1). */
  lemma {:induction false} SlotCountClosedForm(n: nat)
    ensures SlotCount(n) == 4 * n * (n + 1)
  {
    if n > 0 {
      SlotCountClosedForm(n - 1);
      assert 4 * (n - 1) * n + 8 * n == 4 * n * (n + 1);
    }
  }

  function Radius(i: nat): real { i as real + RadiusSpacing }

  /** Angle of slot j of ring i, in turns: 2π/(8i)·j radians. */
  function Turn(i: nat, j: nat): real
    requires i >= 1
  {
    j as real / RingSize(i) as real
  }

  /** Direction in the horizontal plane for a bearing (a unit vector when
      the bearing's sine and cosine are those of one angle). */
  function Heading(b: Bearing): Vec3 { Vec3(b.sin, 0.0, b.cos) }

  /** Number of rings the generator builds for the configured (float)
      `rings`: the loop runs i = 1, 2, … while i <= rings. */
  function RingCount(rings: real): (n: nat)
    ensures n == 0 || n as real <= rings
    ensures rings < (n + 1) as real
  {
    if rings < 1.0 then 0 else rings.Floor
  }

  /** Slot j of ring i as generated for a target at `target`. */
  function NewSlot(trig: Trig, target: Vec3, i: nat, j: nat): (s: Slot)
    requires i >= 1
    ensures s.ring == i && s.angularIndex == j && !s.assignedStatus
    ensures s.offset == Scale(Heading(trig(Turn(i, j))), Radius(i))
    ensures s.offset.y == 0.0 && s.currentPos == Add(target, s.offset)
  {
    var creation := Add(Scale(Heading(trig(Turn(i, j))), Radius(i)), target);
    Slot(i, j, Sub(creation, target), creation, false)
  }

  /** The slots of ring i, in angular order. */
  function Ring(trig: Trig, target: Vec3, i: nat): (r: seq<Slot>)
    requires i >= 1
    ensures |r| == RingSize(i)
    ensures forall j :: 0 <= j < |r| ==> r[j].ring == i && r[j].angularIndex == j && !r[j].assignedStatus
  {
    seq(RingSize(i), j requires 0 <= j < RingSize(i) => NewSlot(trig, target, i, j))
  }

  /** The whole table for n rings: ring 1 first, each ring in angular order. */
  function Grid(trig: Trig, target: Vec3, n: nat): (r: seq<Slot>)
    ensures |r| == SlotCount(n)
  {
    if n == 0 then [] else Grid(trig, target, n - 1) + Ring(trig, target, n)
  }

  lemma {:induction false} SlotCountMonotone(a: nat, b: nat)
    requires a <= b
    ensures SlotCount(a) <= SlotCount(b)
  {
    if a < b {
      SlotCountMonotone(a, b - 1);
    }
  }

  /** Slot j of ring i sits at index SlotCount(i - 1) + j. */
  lemma {:induction false} GridAt(trig: Trig, target: Vec3, n: nat, i: nat, j: nat)
    requires 1 <= i <= n && j < RingSize(i)
    ensures SlotCount(i - 1) + j < SlotCount(n)
    ensures Grid(trig, target, n)[SlotCount(i - 1) + j] == NewSlot(trig, target, i, j)
  {
    if i < n {
      GridAt(trig, target, n - 1, i, j);
      SlotCountMonotone(i, n - 1);
    }
  }

  /** Conversely, every slot of the table is slot `angularIndex` of ring
      `ring` for some ring 1..n, stored at the index GridAt names. */
  lemma {:induction false} GridShape(trig: Trig, target: Vec3, n: nat, k: nat)
    requires k < SlotCount(n)
    ensures var s := Grid(trig, target, n)[k];
      1 <= s.ring <= n && s.angularIndex < RingSize(s.ring) &&
      k == SlotCount(s.ring - 1) + s.angularIndex &&
      s == NewSlot(trig, target, s.ring, s.angularIndex)
  {
    if k < SlotCount(n - 1) {
      GridShape(trig, target, n - 1, k);
    }
  }

  /** Slots are stored ring by ring in increasing ring order. */
  lemma GridRingOrder(trig: Trig, target: Vec3, n: nat, a: nat, b: nat)
    requires a <= b < SlotCount(n)
    ensures Grid(trig, target, n)[a].ring <= Grid(trig, target, n)[b].ring
  {
    GridShape(trig, target, n, a);
    GridShape(trig, target, n, b);
  }

  /** A freshly generated slot is unassigned, lies on ring `ring` at radius
      ring + 0.5 in its own direction, and sits at target + offset. */
  lemma GridFresh(trig: Trig, target: Vec3, n: nat, k: nat)
    requires k < SlotCount(n)
    ensures var s := Grid(trig, target, n)[k];
      s.ring >= 1 && !s.assignedStatus && s.currentPos == Add(target, s.offset) &&
      s.offset == Scale(Heading(trig(Turn(s.ring, s.angularIndex))), Radius(s.ring)) &&
      0.0 <= Turn(s.ring, s.angularIndex) < 1.0
  {
    GridShape(trig, target, n, k);
    var s := Grid(trig, target, n)[k];
    TurnBounds(s.ring, s.angularIndex);
  }

  /** `trig` gives a genuine sine and cosine: sin² + cos² = 1 at every angle. */
  ghost predicate UnitTrig(trig: Trig)
  {
    forall t :: trig(t).sin * trig(t).sin + trig(t).cos * trig(t).cos == 1.0
  }

  /** With a genuine sine and cosine, every generated slot lies on its
      ring's circle: its horizontal distance from the target is ring + 0.5. */
  lemma GridRadius(trig: Trig, target: Vec3, n: nat, k: nat)
    requires UnitTrig(trig) && k < SlotCount(n)
    ensures var s := Grid(trig, target, n)[k];
      s.offset.y == 0.0 &&
      s.offset.x * s.offset.x + s.offset.z * s.offset.z == Radius(s.ring) * Radius(s.ring)
  {
    GridFresh(trig, target, n, k);
    OnCircle(trig(Turn(Grid(trig, target, n)[k].ring, Grid(trig, target, n)[k].angularIndex)),
             Radius(Grid(trig, target, n)[k].ring));
  }

  /** A unit heading scaled by r lies on the circle of radius r. */
  lemma OnCircle(b: Bearing, r: real)
    requires b.sin * b.sin + b.cos * b.cos == 1.0
    ensures var v := Scale(Heading(b), r);
      v.y == 0.0 && v.x * v.x + v.z * v.z == r * r
  {
    assert (b.sin * r) * (b.sin * r) + (b.cos * r) * (b.cos * r) == (b.sin * b.sin + b.cos * b.cos) * (r * r);
  }

  /** Angles within a ring cover [0, 1) turn. */
  lemma TurnBounds(i: nat, j: nat)
    requires i >= 1 && j < RingSize(i)
    ensures 0.0 <= Turn(i, j) < 1.0
  {
    var d := RingSize(i) as real;
    assert j as real < d;
    assert j as real / d < d / d;
  }

  /** Two slots are the same slot: same place in the layout, same offset. */
  predicate SameSlot(a: Slot, b: Slot)
  {
    a.ring == b.ring && a.angularIndex == b.angularIndex && a.offset == b.offset
  }

  /** Every slot sits at its offset from the target, flattened to y = 0. */
  predicate Tracking(s: seq<Slot>, target: Vec3)
  {
    forall k :: 0 <= k < |s| ==> s[k].currentPos == Add(s[k].offset, target).(y := 0.0)
  }

  /** The table after UpdatePointLocation(target). */
  function Tracked(s: seq<Slot>, target: Vec3): (r: seq<Slot>)
    ensures |r| == |s| && Tracking(r, target)
    ensures forall k :: 0 <= k < |s| ==> SameSlot(r[k], s[k]) && r[k].assignedStatus == s[k].assignedStatus
  {
    seq(|s|, k requires 0 <= k < |s| => s[k].(currentPos := Add(s[k].offset, target).(y := 0.0)))
  }

  /** Updating a table that already tracks the target changes nothing; in
      particular, repeating an update with the same target is a no-op. */
  lemma TrackedStable(s: seq<Slot>, target: Vec3)
    requires Tracking(s, target)
    ensures Tracked(s, target) == s
  {
    var r := Tracked(s, target);
    assert forall k :: 0 <= k < |s| ==> r[k] == s[k];
  }

  /** Only the latest target matters: positions never drift from it. */
  lemma TrackedLatest(s: seq<Slot>, t1: Vec3, t2: Vec3)
    ensures Tracked(Tracked(s, t1), t2) == Tracked(s, t2)
  {
    var a, b := Tracked(Tracked(s, t1), t2), Tracked(s, t2);
    assert forall k :: 0 <= k < |s| ==> a[k] == b[k];
  }

  /** The table with slot `index`'s assigned flag set to `value`. */
  function WithAssigned(s: seq<Slot>, index: nat, value: bool): (r: seq<Slot>)
    requires index < |s|
    ensures |r| == |s| && r[index].assignedStatus == value
    ensures SameSlot(r[index], s[index]) && r[index].currentPos == s[index].currentPos
    ensures forall k :: 0 <= k < |s| && k != index ==> r[k] == s[k]
  {
    s[index := s[index].(assignedStatus := value)]
  }

  /** The assigned flags of a table. */
  function Flags(s: seq<Slot>): (r: seq<bool>)
    ensures |r| == |s| && forall k :: 0 <= k < |s| ==> r[k] == s[k].assignedStatus
  {
    seq(|s|, k requires 0 <= k < |s| => s[k].assignedStatus)
  }

  /** The slot table and the shared assignment flags (PositionManager). */
  class PositionManager {
    /** Configured ring count; a float in the source. */
    const rings: real
    const trig: Trig
    /** The table; its length is fixed once generated. */
    const points: array<Slot>
    /** The table as generated; which slot sits at which index, and each
        slot's offset, never change. */
    ghost const layout: seq<Slot>

    ghost predicate Valid()
      reads this, points
    {
      points.Length == |layout| &&
      forall k :: 0 <= k < points.Length ==> SameSlot(points[k], layout[k])
    }

    /** Builds the table for the target's position at start-up. */
    constructor (rings: real, trig: Trig, target: Vec3)
      ensures Valid() && fresh(points)
      ensures this.rings == rings && this.trig == trig
      ensures layout == Grid(trig, target, RingCount(rings)) && points[..] == layout
    {
      this.rings := rings;
      this.trig := trig;
      var pts := InitializePoints(rings, trig, target);
      points := pts;
      layout := pts[..];
    }

    /** Generates ring i = 1, 2, … while i <= rings, each with 8·i slots. */
    static method InitializePoints(rings: real, trig: Trig, target: Vec3) returns (pts: array<Slot>)
      ensures fresh(pts)
      ensures pts[..] == Grid(trig, target, RingCount(rings))
    {
      var initialSetPosition: seq<Slot> := [];
      var i := 1;
      while i as real <= rings
        invariant 1 <= i <= RingCount(rings) + 1
        invariant initialSetPosition == Grid(trig, target, i - 1)
        decreases RingCount(rings) + 1 - i
      {
        var positions := RingSize(i);
        var j := 0;
        while j < positions
          invariant 0 <= j <= positions
          invariant initialSetPosition == Grid(trig, target, i - 1) + Ring(trig, target, i)[..j]
        {
          var newPoint := Heading(trig(j as real / positions as real));
          var ringSpacing := i as real + RadiusSpacing;
          var creationPoint := Add(Scale(newPoint, ringSpacing), target);
          var vecAwayFromTarget := Sub(creationPoint, target);
          var point := Slot(i, j, vecAwayFromTarget, creationPoint, false);
          assert point == Ring(trig, target, i)[j];
          assert Ring(trig, target, i)[..j + 1] == Ring(trig, target, i)[..j] + [point];
          initialSetPosition := initialSetPosition + [point];
          j := j + 1;
        }
        assert Ring(trig, target, i)[..positions] == Ring(trig, target, i);
        i := i + 1;
      }
      pts := new Slot[|initialSetPosition|](k requires 0 <= k < |initialSetPosition| => initialSetPosition[k]);
    }

    /** The only writer of a slot's assigned flag. */
    method SetPositionAssignment(index: int, value: bool)
      requires Valid() && 0 <= index < points.Length
      modifies points
      ensures Valid()
      ensures points[..] == WithAssigned(old(points[..]), index, value)
      ensures points[index].assignedStatus == value
      ensures points[index].currentPos == old(points[index].currentPos)
      ensures forall k :: 0 <= k < points.Length && k != index ==> points[k] == old(points[k])
    {
      points[index] := points[index].(assignedStatus := value);
    }

    /** Moves every slot to its offset from the target's new position, on
        the ground plane; flags and offsets are untouched. */
    method UpdatePointLocation(target: Vec3)
      requires Valid()
      modifies points
      ensures Valid()
      ensures points[..] == Tracked(old(points[..]), target)
    {
      var i := 0;
      while i < points.Length
        invariant 0 <= i <= points.Length
        invariant forall k :: 0 <= k < i ==> points[k] == Tracked(old(points[..]), target)[k]
        invariant forall k :: i <= k < points.Length ==> points[k] == old(points[k])
      {
        var updateLoc := Add(points[i].offset, target);
        updateLoc := updateLoc.(y := 0.0);
        points[i] := points[i].(currentPos := updateLoc);
        i := i + 1;
      }
    }
  }
}
