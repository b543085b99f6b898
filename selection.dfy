/** HighestWeight: the scan that picks an agent's candidate slot from its
    scores against the shared assigned flags.

    Random.Range becomes two parameters: `seed`, the random starting index in
    [0, n), and `tieRoll`, from which the tie pick is taken as
    tieRoll mod (length of the tie list), so every pick the source can make
    is reachable. */
module Selection {
  import opened Positions

  /** The scan's running state: the best index so far and the tie list. */
  datatype ScanState = ScanState(highest: nat, matched: seq<nat>)

  /** One iteration of the scan, at index i. The tie list is never cleared
      when a strictly better score turns up. */
  function ScanStep(scores: seq<real>, flags: seq<bool>, st: ScanState, i: nat): (r: ScanState)
    requires i < |scores| <= |flags| && st.highest < |scores|
    ensures r.highest < |scores| && scores[st.highest] <= scores[r.highest]
    ensures r == st || (r.highest == i && !flags[i])
    ensures r.matched == st.matched || r.matched == st.matched + [i]
    ensures r.matched == st.matched + [i] <==> scores[i] == scores[st.highest] && !flags[i]
  {
    if scores[i] == scores[st.highest] && !flags[i] then ScanState(i, st.matched + [i])
    else if scores[i] > scores[st.highest] && !flags[i] then ScanState(i, st.matched)
    else st
  }

  /** The scan state after indices 0..n-1 have been visited. */
  function Scan(scores: seq<real>, flags: seq<bool>, seed: nat, n: nat): (st: ScanState)
    requires seed < |scores| <= |flags| && n <= |scores|
    ensures st.highest < |scores|
  {
    if n == 0 then ScanState(seed, [])
    else ScanStep(scores, flags, Scan(scores, flags, seed, n - 1), n - 1)
  }

  /** What the scan has established after n indices: the running best is
      the seed or an unassigned slot, it scores at least the seed and every
      unassigned slot seen, every tie is an unassigned slot already seen, and
      when every slot seen is assigned nothing has moved. */
  lemma {:induction false} ScanFacts(scores: seq<real>, flags: seq<bool>, seed: nat, n: nat)
    requires seed < |scores| <= |flags| && n <= |scores|
    ensures var st := Scan(scores, flags, seed, n);
      (st.highest == seed || (st.highest < n && !flags[st.highest])) &&
      scores[seed] <= scores[st.highest] &&
      (forall k :: 0 <= k < n && !flags[k] ==> scores[k] <= scores[st.highest]) &&
      (forall m :: m in st.matched ==> m < n && !flags[m]) &&
      ((forall k :: 0 <= k < n ==> flags[k]) ==> st == ScanState(seed, []))
  {
    if n > 0 {
      ScanFacts(scores, flags, seed, n - 1);
    }
  }

  /** The result: a random member of the tie list if there is one,
      otherwise the running best. */
  function Pick(st: ScanState, tieRoll: nat): (r: nat)
    ensures |st.matched| > 0 ==> r in st.matched
    ensures |st.matched| == 0 ==> r == st.highest
  {
    if |st.matched| > 0 then st.matched[tieRoll % |st.matched|] else st.highest
  }

  /** The index HighestWeight returns: in range, and either the random seed
      or an unassigned slot. */
  function HighestWeightOf(scores: seq<real>, flags: seq<bool>, seed: nat, tieRoll: nat): (r: nat)
    requires seed < |scores| <= |flags|
    ensures r < |scores|
    ensures r == seed || !flags[r]
  {
    ScanFacts(scores, flags, seed, |scores|);
    var st := Scan(scores, flags, seed, |scores|);
    assert |st.matched| > 0 ==> st.matched[tieRoll % |st.matched|] in st.matched;
    Pick(st, tieRoll)
  }

  /** When every slot is assigned, the random seed comes back. */
  lemma HighestWeightAllAssigned(scores: seq<real>, flags: seq<bool>, seed: nat, tieRoll: nat)
    requires seed < |scores| <= |flags|
    requires forall k :: 0 <= k < |scores| ==> flags[k]
    ensures HighestWeightOf(scores, flags, seed, tieRoll) == seed
  {
    ScanFacts(scores, flags, seed, |scores|);
  }

  /** With an empty tie list the result is the running best: it scores at
      least as high as the seed and as every unassigned slot. */
  lemma HighestWeightNoTies(scores: seq<real>, flags: seq<bool>, seed: nat, tieRoll: nat)
    requires seed < |scores| <= |flags|
    requires Scan(scores, flags, seed, |scores|).matched == []
    ensures var r := HighestWeightOf(scores, flags, seed, tieRoll);
      r == Scan(scores, flags, seed, |scores|).highest &&
      scores[seed] <= scores[r] &&
      forall k :: 0 <= k < |scores| && !flags[k] ==> scores[k] <= scores[r]
  {
    ScanFacts(scores, flags, seed, |scores|);
  }

  /** If the seed is unassigned, the result is an unassigned slot. */
  lemma HighestWeightFreeSeed(scores: seq<real>, flags: seq<bool>, seed: nat, tieRoll: nat)
    requires seed < |scores| <= |flags| && !flags[seed]
    ensures !flags[HighestWeightOf(scores, flags, seed, tieRoll)]
  {
  }

  /** The tie list is not cleared when a better score appears, so a tie can
      be returned that scores below the running best: with scores [1, 2],
      nothing assigned and seed 0, index 0 is a tie and index 1 the best,
      and the only possible result is 0. */
  lemma StaleTieReturned(tieRoll: nat)
    ensures var scores, flags := [1.0, 2.0], [false, false];
      Scan(scores, flags, 0, 2) == ScanState(1, [0]) &&
      HighestWeightOf(scores, flags, 0, tieRoll) == 0 &&
      scores[0] < scores[Scan(scores, flags, 0, 2).highest]
  {
    var scores, flags := [1.0, 2.0], [false, false];
    assert Scan(scores, flags, 0, 1) == ScanState(0, [0]);
  }

  /** An assigned seed can come back even when a slot is free: with scores
      [5, 1], slot 0 assigned and seed 0, no unassigned slot ties or beats
      the seed's score. */
  lemma AssignedSeedReturned(tieRoll: nat)
    ensures var scores, flags := [5.0, 1.0], [true, false];
      HighestWeightOf(scores, flags, 0, tieRoll) == 0 && flags[0] && !flags[1]
  {
    var scores, flags := [5.0, 1.0], [true, false];
    assert Scan(scores, flags, 0, 1) == ScanState(0, []);
  }

  /** HighestWeight, reading the flags straight from the slot table. It
      changes neither the scores nor any flag. */
  method HighestWeight(scores: seq<real>, points: array<Slot>, seed: nat, tieRoll: nat) returns (highest: nat)
    requires seed < |scores| <= points.Length
    ensures highest == HighestWeightOf(scores, Flags(points[..]), seed, tieRoll)
    ensures highest < |scores| && (highest == seed || !points[highest].assignedStatus)
  {
    ghost var flags := Flags(points[..]);
    highest := seed;
    var matchedWeights: seq<nat> := [];
    var i := 0;
    while i < |scores|
      invariant 0 <= i <= |scores|
      invariant ScanState(highest, matchedWeights) == Scan(scores, flags, seed, i)
    {
      if scores[i] == scores[highest] && !points[i].assignedStatus {
        matchedWeights := matchedWeights + [i];
        highest := i;
      } else if scores[i] > scores[highest] && !points[i].assignedStatus {
        highest := i;
      }
      i := i + 1;
    }
    if |matchedWeights| > 0 {
      highest := matchedWeights[tieRoll % |matchedWeights|];
    }
  }
}
