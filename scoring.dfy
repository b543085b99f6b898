/** One agent's scoring pass and its exclusive claim on a slot
    (PositionScoring): the scores are a weighted sum of the enabled
    objectives, rounded to hundredths; the agent moves to the best free
    slot on its first pass or on a strict improvement, claiming the new
    slot before releasing the old one. */
module Scoring {
  import opened Positions
  import opened Queries
  import opened Selection

  /** The agent's tunable weights and objective switches. */
  datatype Weights = Weights(
    preferredDist: real, distanceInfluence: real,
    angleTolerance: real, angleInfluence: real,
    enableDistance: bool, enableFacing: bool, invertDirection: bool)

  /** What the allocator updates: the held slot (m_currentPositionIndex),
      the forced-move flag (m_reposition) and the first-assignment flag
      (m_initPoint). */
  datatype Agent = Agent(currentIndex: nat, reposition: bool, initPoint: bool)

  /** An agent's state right after InitializeVariables. */
  const Fresh: Agent := Agent(0, true, true)

  /** The inputs one pass can score: one distance and one dot product per
      slot and, when the distance objective is on, no 0/0 in its
      normalisation (the NaN case this model does not represent). */
  predicate Scorable(dists: seq<real>, dots: seq<real>, w: Weights, rings: real)
  {
    |dists| == |dots| > 0 && (w.enableDistance ==> !ZeroOverZero(dists, w.preferredDist, rings))
  }

  /** The unrounded scores of one pass: reset, then add each enabled
      objective scaled by its influence. */
  function ObjectiveTotals(dists: seq<real>, dots: seq<real>, w: Weights, rings: real): (r: seq<real>)
    requires Scorable(dists, dots, w, rings)
    ensures |r| == |dists|
  {
    var distance := DistanceFromTarget(dists, w.preferredDist, rings);
    var zero := ResetScores(dists);
    var withDistance := if distance.Some? then AddScores(zero, distance.value, w.enableDistance, w.distanceInfluence) else zero;
    AddScores(withDistance, AnglePreference(dots, w.invertDirection, w.angleTolerance), w.enableFacing, w.angleInfluence)
  }

  /** The scores of one pass, rounded to hundredths. */
  function ObjectiveScores(dists: seq<real>, dots: seq<real>, w: Weights, rings: real): (r: seq<real>)
    requires Scorable(dists, dots, w, rings)
    ensures |r| == |dists|
  {
    RoundAll(ObjectiveTotals(dists, dots, w, rings))
  }

  /** Each slot's total is its weighted sum of the enabled objectives; a
      disabled objective contributes nothing. */
  lemma ObjectiveTotalsWeightedSum(dists: seq<real>, dots: seq<real>, w: Weights, rings: real, i: nat)
    requires Scorable(dists, dots, w, rings) && i < |dists|
    ensures ObjectiveTotals(dists, dots, w, rings)[i] ==
      (if w.enableDistance then DistanceFromTarget(dists, w.preferredDist, rings).value[i] * w.distanceInfluence else 0.0) +
      (if w.enableFacing then AnglePreference(dots, w.invertDirection, w.angleTolerance)[i] * w.angleInfluence else 0.0)
  {
    var distance := DistanceFromTarget(dists, w.preferredDist, rings);
    var angle := AnglePreference(dots, w.invertDirection, w.angleTolerance);
    var zero := ResetScores(dists);
    var withDistance := if distance.Some? then AddScores(zero, distance.value, w.enableDistance, w.distanceInfluence) else zero;
    assert ObjectiveTotals(dists, dots, w, rings) == AddScores(withDistance, angle, w.enableFacing, w.angleInfluence);
    assert |withDistance| == |dists| &&
      withDistance[i] == (if w.enableDistance then distance.value[i] * w.distanceInfluence else 0.0);
  }

  /** The flag writes of a move: claim `incoming`, then release `current`
      unless this is the agent's first assignment. Positions, offsets and
      every other slot are left alone. */
  function Claim(points: seq<Slot>, incoming: nat, current: nat, first: bool): (r: seq<Slot>)
    requires incoming < |points| && current < |points|
    ensures |r| == |points|
    ensures forall k :: 0 <= k < |points| ==> SameSlot(r[k], points[k]) && r[k].currentPos == points[k].currentPos
    ensures forall k :: 0 <= k < |points| && k != incoming && k != current ==> r[k] == points[k]
    ensures first ==> r == WithAssigned(points, incoming, true)
    ensures !first ==> !r[current].assignedStatus
    ensures (first || incoming != current) ==> r[incoming].assignedStatus
  {
    var claimed := WithAssigned(points, incoming, true);
    if first then claimed else WithAssigned(claimed, current, false)
  }

  /** The collision check of a move: a taken candidate is replaced by one
      more HighestWeight pick, which is not checked again. */
  function Retarget(points: seq<Slot>, scores: seq<real>, incoming: nat, seed: nat, tieRoll: nat): (r: nat)
    requires incoming < |scores| == |points| && seed < |scores|
    ensures r < |scores|
    ensures !points[incoming].assignedStatus ==> r == incoming
    ensures points[incoming].assignedStatus ==> r == seed || !points[r].assignedStatus
  {
    if points[incoming].assignedStatus then HighestWeightOf(scores, Flags(points), seed, tieRoll) else incoming
  }

  /** SetPositionLocation: the new agent state and slot table. */
  function Relocate(points: seq<Slot>, scores: seq<real>, a: Agent, incoming: nat, seed: nat, tieRoll: nat): (r: (Agent, seq<Slot>))
    requires incoming < |scores| == |points| && seed < |scores| && a.currentIndex < |points|
    ensures r.0.currentIndex < |points| && !r.0.reposition && !r.0.initPoint && |r.1| == |points|
    ensures !points[incoming].assignedStatus ==> r.0.currentIndex == incoming
    ensures points[incoming].assignedStatus ==> r.0.currentIndex == seed || !points[r.0.currentIndex].assignedStatus
    ensures (a.initPoint || r.0.currentIndex != a.currentIndex) ==> r.1[r.0.currentIndex].assignedStatus
    ensures !a.initPoint ==> !r.1[a.currentIndex].assignedStatus
    ensures forall k :: 0 <= k < |points| && k != r.0.currentIndex && k != a.currentIndex ==> r.1[k] == points[k]
  {
    var chosen := Retarget(points, scores, incoming, seed, tieRoll);
    (Agent(chosen, false, false), Claim(points, chosen, a.currentIndex, a.initPoint))
  }

  /** The decision half of Evaluate on freshly computed scores: pick a
      candidate, and move only when forced or on a strict improvement. */
  function Allocate(points: seq<Slot>, scores: seq<real>, a: Agent,
                    seed: nat, tieRoll: nat, reseed: nat, reroll: nat): (r: (Agent, seq<Slot>))
    requires |scores| == |points| && seed < |scores| && reseed < |scores| && a.currentIndex < |scores|
    ensures r.0.currentIndex < |points| && |r.1| == |points|
    ensures forall k :: 0 <= k < |points| ==> SameSlot(r.1[k], points[k]) && r.1[k].currentPos == points[k].currentPos
  {
    var candidate := HighestWeightOf(scores, Flags(points), seed, tieRoll);
    if scores[candidate] > scores[a.currentIndex] || a.reposition
    then Relocate(points, scores, a, candidate, reseed, reroll)
    else (a, points)
  }

  /** Hysteresis: without a forced move or a strict improvement nothing
      changes; otherwise the agent moves and both flags clear. A move made
      on an improvement to a free candidate lands on a higher score. */
  lemma AllocateSwitchesOnlyOnGain(points: seq<Slot>, scores: seq<real>, a: Agent,
                                    seed: nat, tieRoll: nat, reseed: nat, reroll: nat)
    requires |scores| == |points| && seed < |scores| && reseed < |scores| && a.currentIndex < |scores|
    ensures var candidate := HighestWeightOf(scores, Flags(points), seed, tieRoll);
      var r := Allocate(points, scores, a, seed, tieRoll, reseed, reroll);
      (!a.reposition && scores[candidate] <= scores[a.currentIndex] ==> r == (a, points)) &&
      (a.reposition || scores[candidate] > scores[a.currentIndex] ==>
        !r.0.reposition && !r.0.initPoint && r == Relocate(points, scores, a, candidate, reseed, reroll)) &&
      (scores[candidate] > scores[a.currentIndex] && !points[candidate].assignedStatus ==>
        r.0.currentIndex == candidate && scores[r.0.currentIndex] > scores[a.currentIndex])
  {
  }

  /** The first move claims exactly one slot and releases none. */
  lemma FirstMoveClaimsOnce(points: seq<Slot>, scores: seq<real>,
                            seed: nat, tieRoll: nat, reseed: nat, reroll: nat)
    requires |scores| == |points| > 0 && seed < |scores| && reseed < |scores|
    ensures var r := Allocate(points, scores, Fresh, seed, tieRoll, reseed, reroll);
      r.0.currentIndex < |points| && !r.0.reposition && !r.0.initPoint &&
      r.1 == WithAssigned(points, r.0.currentIndex, true)
  {
  }

  /** A later move to a different slot leaves the new slot claimed, the old
      one released and every other flag as it was. */
  lemma MoveTransfersClaim(points: seq<Slot>, scores: seq<real>, a: Agent,
                           seed: nat, tieRoll: nat, reseed: nat, reroll: nat)
    requires |scores| == |points| && seed < |scores| && reseed < |scores| && a.currentIndex < |scores|
    requires !a.initPoint
    ensures var r := Allocate(points, scores, a, seed, tieRoll, reseed, reroll);
      r.0.currentIndex != a.currentIndex ==>
        r.1[r.0.currentIndex].assignedStatus && !r.1[a.currentIndex].assignedStatus &&
        forall k :: 0 <= k < |points| && k != r.0.currentIndex && k != a.currentIndex ==> r.1[k] == points[k]
  {
  }

  /** When the candidate is taken and the one re-selection yields the
      agent's own slot, claim-then-release leaves that slot unassigned.
      With two slots both taken, the agent on slot 0, scores [0, 1] and
      seed 1: the candidate is the taken seed 1, which beats slot 0; the
      re-selection from seed 0 returns 0; the agent stays on slot 0, which
      is now free. */
  lemma OwnSlotReleased(points: seq<Slot>)
    requires |points| == 2 && points[0].assignedStatus && points[1].assignedStatus
    ensures var r := Allocate(points, [0.0, 1.0], Agent(0, false, false), 1, 0, 0, 0);
      r.0.currentIndex == 0 && !r.1[0].assignedStatus && r.1[1].assignedStatus
  {
    var scores := [0.0, 1.0];
    HighestWeightAllAssigned(scores, Flags(points), 1, 0);
    HighestWeightAllAssigned(scores, Flags(points), 0, 0);
  }

  /** Passes run one at a time, so an agent evaluated after another one has
      claimed slot c sees c as taken: its candidate is c only if c is its
      own random seed. */
  lemma NextAgentSkipsClaimedSlot(points: seq<Slot>, scoresA: seq<real>, a: Agent,
                                  seed: nat, tieRoll: nat, reseed: nat, reroll: nat,
                                  scoresB: seq<real>, seedB: nat, tieRollB: nat)
    requires |scoresA| == |points| && seed < |scoresA| && reseed < |scoresA| && a.currentIndex < |scoresA|
    requires |scoresB| == |points| && seedB < |scoresB|
    ensures var r := Allocate(points, scoresA, a, seed, tieRoll, reseed, reroll);
      r.1[r.0.currentIndex].assignedStatus && seedB != r.0.currentIndex ==>
        HighestWeightOf(scoresB, Flags(r.1), seedB, tieRollB) != r.0.currentIndex
  {
  }

  /** One agent (PositionScoring) and the slot table it shares. */
  class PositionScoring {
    const manager: PositionManager
    const weights: Weights
    /** _positionScores; a null array before initialisation is modelled as []. */
    var scores: seq<real>
    var pointDataSize: nat
    var currentIndex: nat
    var reposition: bool
    var initPoint: bool
    var initFlag: bool

    ghost predicate Valid()
      reads this, manager, manager.points
    {
      manager.Valid() &&
      (initFlag ==> 0 < pointDataSize == |scores| == manager.points.Length && currentIndex < pointDataSize)
    }

    function AgentState(): Agent
      reads this
    {
      Agent(currentIndex, reposition, initPoint)
    }

    /** Start: the agent starts uninitialised and then initialises. */
    constructor (manager: PositionManager, weights: Weights)
      requires manager.Valid()
      ensures Valid() && this.manager == manager && this.weights == weights
      ensures initFlag == (manager.points.Length > 0)
      ensures initFlag ==> (pointDataSize == |scores| == manager.points.Length && AgentState() == Fresh &&
                            forall i :: 0 <= i < |scores| ==> scores[i] == 0.0)
    {
      this.manager := manager;
      this.weights := weights;
      scores := [];
      pointDataSize := 0;
      currentIndex := 0;
      reposition := false;
      initPoint := false;
      initFlag := false;
      new;
      InitializeVariables();
    }

    /** Sizes the scores to the table and resets the allocator state; does
        nothing while the table is empty. */
    method InitializeVariables()
      requires Valid()
      modifies this
      ensures Valid()
      ensures manager.points.Length > 0 ==>
        initFlag && pointDataSize == manager.points.Length && AgentState() == Fresh &&
        |scores| == pointDataSize && forall i :: 0 <= i < |scores| ==> scores[i] == 0.0
      ensures manager.points.Length == 0 ==> unchanged(this)
    {
      if manager.points.Length > 0 {
        pointDataSize := manager.points.Length;
        scores := seq(pointDataSize, _ => 0.0);
        currentIndex := 0;
        reposition := true;
        initFlag := true;
        initPoint := true;
      }
    }

    /** Moves to `incomingIndex` (or, if it is taken, to one re-selected
        slot): claim the new slot, release the old one unless this is the
        first assignment, then record the move. */
    method SetPositionLocation(incomingIndex: nat, seed: nat, tieRoll: nat)
      requires Valid() && initFlag && incomingIndex < pointDataSize && seed < pointDataSize
      modifies this, manager.points
      ensures Valid() && initFlag && scores == old(scores) && pointDataSize == old(pointDataSize)
      ensures (AgentState(), manager.points[..]) ==
        Relocate(old(manager.points[..]), scores, old(AgentState()), incomingIndex, seed, tieRoll)
    {
      var incoming := incomingIndex;
      if manager.points[incoming].assignedStatus {
        incoming := HighestWeight(scores, manager.points, seed, tieRoll);
      }
      manager.SetPositionAssignment(incoming, true);
      if !initPoint {
        manager.SetPositionAssignment(currentIndex, false);
      }
      currentIndex := incoming;
      reposition := false;
      initPoint := false;
    }

    /** One scoring pass. `dists` and `dots` are the per-slot distances from
        the target and dot products of the agent's and the slot's planar
        bearings to the target; `seed`/`tieRoll` drive HighestWeight and
        `reseed`/`reroll` the re-selection on a collision. Returns false when
        the table is empty: the source then fails on its null score array. */
    method Evaluate(dists: seq<real>, dots: seq<real>, seed: nat, tieRoll: nat, reseed: nat, reroll: nat)
      returns (ready: bool)
      requires Valid()
      requires |dists| == |dots| == manager.points.Length
      requires manager.points.Length > 0 ==> seed < manager.points.Length && reseed < manager.points.Length
      requires manager.points.Length > 0 ==> Scorable(dists, dots, weights, manager.rings)
      modifies this, manager.points
      ensures Valid()
      ensures ready == (manager.points.Length > 0)
      ensures !ready ==> unchanged(this) && manager.points[..] == old(manager.points[..])
      ensures ready ==> initFlag && pointDataSize == manager.points.Length
      ensures ready ==> scores == ObjectiveScores(dists, dots, weights, manager.rings)
      ensures ready ==> ((AgentState(), manager.points[..]) ==
        Allocate(old(manager.points[..]), scores, if old(initFlag) then old(AgentState()) else Fresh,
                 seed, tieRoll, reseed, reroll))
    {
      if !initFlag {
        InitializeVariables();
      }
      if !initFlag {
        return false;
      }
      ghost var before := AgentState();
      assert before == if old(initFlag) then old(AgentState()) else Fresh;
      assert manager.points[..] == old(manager.points[..]);
      ready := true;
      var s := ResetScores(scores);
      // The source adds the distance query unconditionally; its None case
      // only reaches here with the objective disabled, where adding is a no-op.
      var distance := DistanceFromTarget(dists, weights.preferredDist, manager.rings);
      if distance.Some? {
        s := AddScores(s, distance.value, weights.enableDistance, weights.distanceInfluence);
      }
      s := AddScores(s, AnglePreference(dots, weights.invertDirection, weights.angleTolerance),
                     weights.enableFacing, weights.angleInfluence);
      s := RoundAll(s);
      assert s == ObjectiveScores(dists, dots, weights, manager.rings) by {
        assert ResetScores(scores) == ResetScores(dists);
      }
      scores := s;
      var incomingPositionIndex := HighestWeight(scores, manager.points, seed, tieRoll);
      if scores[incomingPositionIndex] > scores[currentIndex] || reposition {
        SetPositionLocation(incomingPositionIndex, reseed, reroll);
      }
      assert (AgentState(), manager.points[..]) == Allocate(old(manager.points[..]), scores, before, seed, tieRoll, reseed, reroll);
    }
  }
}
