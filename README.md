# Standing-slot allocation around a moving target

This project models the core of a Unity prototype in which several AI agents surround a target. The core has two parts:

- **Slot table (`PositionManager`).** Standing slots are laid out in concentric rings around the target. Ring `i` runs from 1 while `i <= rings`, holds `8·i` slots and has radius `i + 0.5`. Each slot keeps a fixed offset from the target. Every frame the slot's current position is recomputed as offset + target, flattened to `y = 0`. Each slot also has a shared `AssignedStatus` flag, and `SetPositionAssignment` is its only writer.
- **Per-agent scoring and exclusive claim (`PositionScoring`).** Each agent scores every slot as a weighted sum of two objectives, a clamped distance band and an angle preference, then rounds the scores to hundredths. `HighestWeight` scans for a candidate against the shared flags, starting from a random index and keeping a tie list. The agent moves on its first pass or when the candidate scores strictly higher than its current slot. A move claims the new slot and then releases the old one, except on the first assignment.

Files and modules:

- `positions.dfy` (`Positions`): vectors, the `Slot` record, the generator specification (`Grid`), the tracking specification (`Tracked`), and the class `PositionManager`. The class holds the slot array, which its methods update in place.
- `queries.dfy` (`Queries`): the distance and angle objectives, `ResetScores` and `AddScores` (these pair elements as LINQ `Zip` does), and `Math.Round(x, 2)` with halves rounding to even.
- `selection.dfy` (`Selection`): `HighestWeight` as a loop over the live flag array. It is specified by `Scan`, a fold with one step per loop iteration, plus lemmas about that fold.
- `scoring.dfy` (`Scoring`): the claim/release sequence (`Claim`, `Retarget`, `Relocate`), the decision made in `Evaluate` (`Allocate`), and the class `PositionScoring`. That class holds the agent's state fields and shares the manager's slot array.

Inputs that the model takes instead of computing:

- **Trigonometry.** `Mathf.Sin` and `Mathf.Cos` are replaced by a caller-supplied function `Trig`. It maps an angle, measured in turns, to its sine and cosine. Slot `j` of ring `i` is at angle `j/(8i)` turns, that is `2π·j/(8i)` radians.
- **Distances and dot products.** `Vector3.Distance` and the dot product of normalised planar vectors are inputs to `Evaluate`, one per slot.
- **Randomness.** `Random.Range` becomes parameters. `seed` is the starting index, with `seed < n`. `tieRoll` gives the tie pick as `tieRoll mod (number of ties)`. `reseed` and `reroll` play the same roles for the one re-selection in `SetPositionLocation`.

Behaviours of the code as written, and how the model treats them:

- **The tie list.** `HighestWeight` never clears its tie list when a strictly better score appears. A stale tie can therefore be returned even though a higher score exists (`Selection.StaleTieReturned`).
- **Assigned slots.** `HighestWeight` can return an assigned seed while free slots exist (`Selection.AssignedSeedReturned`). So "never returns an assigned slot when a free one exists" does not hold.
- **Own slot released.** The collision re-check runs only once. If the re-selection picks the agent's own slot, claim-then-release leaves that slot unassigned (`Scoring.OwnSlotReleased`).
- **Ground plane.** Freshly generated slots keep the target's height. Only the per-frame update forces `y = 0`.
- **Division by zero.** When the first and last slot are equally far away, the distance normalisation divides by zero. A slot off the biased minimum gets `1 − |±∞|`, which `Clamp01` turns into 0. The model keeps that all-zero objective (`Queries.EqualDistancesScoreZero`). A slot exactly at the biased minimum gets NaN, which the model does not represent (see "## Left out").
- **`m_initPoint` in release builds.** `m_initPoint` is declared only inside the `#if DEBUG` block (PositionScoring.cs:222). The model treats it as an ordinary field.

## Model

| member | source | states |
|---|---|---|
| `Positions.RingCount` | PositionManager.cs:78 | the generator builds exactly the rings `i ≥ 1` with `i <= rings` for the float `rings`: `n = 0` or `n <= rings`, and `rings < n + 1` |
| `Positions.NewSlot` | PositionManager.cs:81-90 | a generated slot is unassigned; its offset is `(sin, 0, cos)` of its angle `j/(8i)` turn, scaled by `i + 0.5`; its position is target + offset, and the offset has no vertical part |
| `Positions.Ring` | PositionManager.cs:80-92 | ring `i` holds `8·i` slots, the `j`-th of which is slot `j` of ring `i`, unassigned |
| `Positions.Grid` | PositionManager.cs:78-95 | rings 1..n in order, with `8·i` slots each: the table holds `SlotCount(n)` slots, the sum of `8·i` over the rings |
| `Positions.SlotCountClosedForm` | PositionManager.cs:78-80 | the slot count of n rings is `4·n·(n+1)` |
| `Positions.GridAt` | PositionManager.cs:78-91 | slot `j` of ring `i` is stored at index `SlotCount(i−1) + j`, which is `4·(i−1)·i + j` |
| `Positions.GridShape` | PositionManager.cs:78-91 | every stored slot is slot `j < 8·i` of some ring `1 <= i <= n`, at that same index, exactly as generated |
| `Positions.GridRingOrder` | PositionManager.cs:78-93 | slots are stored ring by ring, in non-decreasing ring order |
| `Positions.GridFresh` | PositionManager.cs:81-90 | every generated slot starts unassigned at target + offset; its offset is `(sin, 0, cos)` of angle `j/(8·ring)` turn, which lies in [0, 1), scaled by `ring + 0.5` |
| `Positions.GridRadius` | PositionManager.cs:81-85 | when `Trig` gives a genuine sine and cosine, every generated offset is horizontal and its length is `ring + 0.5`: `x² + z² = (ring + 0.5)²` |
| `Positions.TurnBounds` | PositionManager.cs:80-81 | the angles of a ring's slots lie in [0, 1) turn |
| `Positions.SlotCountMonotone` | PositionManager.cs:78-80 | more rings never means fewer slots |
| `Positions.Tracked` | PositionManager.cs:98-104 | after an update every slot sits at offset + target with `y = 0`; ring, angular index, offset, flag and length are unchanged |
| `Positions.TrackedStable` | PositionManager.cs:98-104 | updating a table that already tracks the target changes nothing, so repeating an update is a no-op |
| `Positions.TrackedLatest` | PositionManager.cs:98-104 | after any sequence of updates, only the latest target determines the positions |
| `Positions.WithAssigned` | PositionManager.cs:37-40 | slot `index`'s flag becomes `value`; its identity and position are kept, and every other slot is unchanged |
| `Positions.Flags` | PositionManager.cs:139 | the flag view of the table has one entry per slot, equal to that slot's `AssignedStatus` |
| `Positions.PositionManager.constructor` | PositionManager.cs:61-62 | the table is the generated grid, and its length and slot identities are then fixed |
| `Positions.PositionManager.InitializePoints` | PositionManager.cs:73-96 | the nested loops build exactly `Grid(trig, target, RingCount(rings))` in a fresh array |
| `Positions.PositionManager.SetPositionAssignment` | PositionManager.cs:37-40 | only `points[index].AssignedStatus` changes, to `value`; positions, offsets and all other slots are untouched |
| `Positions.PositionManager.UpdatePointLocation` | PositionManager.cs:98-104 | the new table is `Tracked(old table, target)`, updated in place; offsets, flags and length are kept |
| `Queries.Abs` | PositionScoring.cs:185 | the result is non-negative and equals `x` or `−x` |
| `Queries.Clamp01` | PositionScoring.cs:186 | the result lies in [0, 1]; a value already in [0, 1] is kept; values below 0 clamp to 0 and values above 1 clamp to 1 |
| `Queries.DistanceBand` | PositionScoring.cs:178-182 | min and max get the same bias `preferredDist·(rings − 1)`, so `max − min` equals the last slot's distance minus the first slot's |
| `Queries.NormalizedDistance` | PositionScoring.cs:184-187 | the score lies in [0, 1]; it is `1 − abs(d − min)/abs(max − min)` within the band width of min, and 0 beyond it |
| `Queries.DistanceFromTarget` | PositionScoring.cs:168-191 | the result is None exactly when the source computes 0/0: first and last distances equal and some slot at the biased minimum. Otherwise there is one score per slot, each in [0, 1], and all 0 when the first and last distances are equal |
| `Queries.EqualDistancesScoreZero` | PositionScoring.cs:178-187 | when every slot is equally far away and the bias `preferredDist·(rings − 1)` is non-zero, the objective is all zeros |
| `Queries.DistanceExtremes` | PositionScoring.cs:178-188 | a slot at the biased min scores 1, one at the biased max scores 0, and one at the midpoint scores 0.5 |
| `Queries.BandPoints` | PositionScoring.cs:184-187 | the normalisation gives 1 at min, 0 at max and 0.5 at the midpoint |
| `Queries.AnglePreference` | PositionScoring.cs:200-211 | one score per slot; for dot products in [−1, 1] each score lies in [tolerance − 1, tolerance + 1] |
| `Queries.AngleOrder` | PositionScoring.cs:207 | a better-aligned slot scores at least as high, and inverting the approach reverses that order |
| `Queries.AngleInverseMirror` | PositionScoring.cs:207 | the inverted and normal scores of a slot sum to `2·tolerance` |
| `Queries.ResetScores` | PositionScoring.cs:161 | every score is 0 and the length is kept |
| `Queries.AddScores` | PositionScoring.cs:156-159 | a disabled objective leaves the scores unchanged; an enabled one adds `query[i]·modifier` to each score, over the shorter of the two lengths |
| `Queries.RoundHalfEven` | PositionScoring.cs:149 | the result is an integer within 0.5 of `x`; on an exact half it is even |
| `Queries.Round2` | PositionScoring.cs:149 | the result is within 0.005 of `x` and is a whole number of hundredths |
| `Queries.Round2Idempotent` | PositionScoring.cs:149 | rounding a rounded score changes nothing |
| `Queries.RoundAll` | PositionScoring.cs:149 | the length is kept and every score moves by at most 0.005 |
| `Scoring.ObjectiveTotals` | PositionScoring.cs:145-147 | the unrounded total has one entry per slot |
| `Scoring.ObjectiveScores` | PositionScoring.cs:145-149 | the rounded scores have one entry per slot |
| `Scoring.ObjectiveTotalsWeightedSum` | PositionScoring.cs:145-147 | each slot's total is its distance score times the distance influence plus its angle score times the angle influence, counting enabled objectives only |
| `Selection.ScanStep` | PositionScoring.cs:117-123 | one iteration moves the running best only to the unassigned index `i`, never to a lower score, and appends `i` to the tie list exactly when `i` is unassigned and ties the running best; the tie list is never shortened |
| `Selection.Pick` | PositionScoring.cs:126-130 | with a non-empty tie list the result is one of the ties; otherwise it is the running best |
| `Selection.Scan` | PositionScoring.cs:116-124 | the running best index of the scan stays in range |
| `Selection.ScanFacts` | PositionScoring.cs:114-124 | after `n` indices, the running best is the seed or an unassigned slot already seen. It scores at least as high as the seed and every unassigned slot seen. Every tie is an unassigned slot already seen. If every slot seen is assigned, the state is still (seed, no ties) |
| `Selection.HighestWeightOf` | PositionScoring.cs:113-130 | the result is in `[0, n)` and is either the random seed or an unassigned slot |
| `Selection.HighestWeightAllAssigned` | PositionScoring.cs:114-124 | when every slot is assigned, the result is exactly the seed |
| `Selection.HighestWeightNoTies` | PositionScoring.cs:116-130 | with an empty tie list, the result is the running best, which scores at least as high as the seed and every unassigned slot |
| `Selection.HighestWeightFreeSeed` | PositionScoring.cs:114-130 | when the seed is unassigned, the result is unassigned |
| `Selection.StaleTieReturned` | PositionScoring.cs:116-128 | with scores [1, 2], no slot assigned and seed 0, the scan ends with best 1 and ties [0], and the result is 0, which scores below the best |
| `Selection.AssignedSeedReturned` | PositionScoring.cs:114-124 | with scores [5, 1], slot 0 assigned and seed 0, the result is slot 0, which is assigned, although slot 1 is free |
| `Selection.HighestWeight` | PositionScoring.cs:113-131 | the loop returns `HighestWeightOf` of the scores and the live flags: an index in range that is the seed or unassigned. It writes neither the scores nor any flag |
| `Scoring.Claim` | PositionScoring.cs:99-102 | the new slot is set to assigned. On the first assignment nothing else changes. Otherwise the old slot ends unassigned, and the new one ends assigned when old ≠ new. No other slot changes, and no slot's position or offset changes |
| `Scoring.Retarget` | PositionScoring.cs:94-96 | a free candidate is kept; a taken one is replaced by one re-selection, which is the re-selection's seed or an unassigned slot |
| `Scoring.Relocate` | PositionScoring.cs:93-106 | the agent ends on the candidate if it was free, otherwise on the re-selection (its seed or a free slot), with both flags cleared. The new slot ends assigned unless it is the agent's own slot after the first assignment; the old slot ends unassigned after the first assignment; no other slot changes |
| `Scoring.Allocate` | PositionScoring.cs:149-153 | the agent's slot index stays in range and the table keeps its length, slot identities and positions; only flags can change |
| `Scoring.AllocateSwitchesOnlyOnGain` | PositionScoring.cs:150-153 | without `m_reposition` and without a strictly higher candidate score, the agent and all flags are unchanged. Otherwise the agent moves and both flags clear. A gain to a free candidate lands on a strictly higher score |
| `Scoring.FirstMoveClaimsOnce` | PositionScoring.cs:99-106 | the first pass after initialisation claims exactly one slot, releases none, and clears `m_reposition` and `m_initPoint` |
| `Scoring.MoveTransfersClaim` | PositionScoring.cs:99-104 | a later move to a different slot leaves the new slot assigned and the old one unassigned, with every other slot as it was |
| `Scoring.OwnSlotReleased` | PositionScoring.cs:94-102 | two taken slots, the agent on 0, scores [0, 1], seed 1 and re-seed 0: the agent stays on slot 0, which ends unassigned |
| `Scoring.NextAgentSkipsClaimedSlot` | PositionManager.cs:107-115 | in serialized passes, a slot claimed by one agent is the next agent's candidate only if it is that agent's own random seed |
| `Scoring.PositionScoring.constructor` | PositionScoring.cs:55-60 | the agent starts uninitialised and then runs `InitializeVariables` |
| `Scoring.PositionScoring.InitializeVariables` | PositionScoring.cs:78-91 | with a non-empty table: scores are zeros sized to the table, index is 0, and `m_reposition`, `m_initPoint` and `m_initFlag` are true; with an empty table nothing changes |
| `Scoring.PositionScoring.SetPositionLocation` | PositionScoring.cs:93-111 | the new agent state and table equal `Relocate` of the old ones: claim, conditional release, then the new index with both flags cleared |
| `Scoring.PositionScoring.Evaluate` | PositionScoring.cs:135-154 | the scores become `ObjectiveScores` of the inputs, and the agent and table become `Allocate` of the old table and agent (the fresh agent if it was uninitialised); on an empty table nothing changes |

Proof helpers, which model no source line of their own and have no row: `Queries.AbsQuotient`, `Queries.RatioBounds` and `Queries.HalfRatio` (division facts behind `NormalizedDistance` and `BandPoints`), and `Positions.OnCircle` (a scaled unit heading lies on its circle, behind `GridRadius`).

## Left out

- Singleton and Unity lifecycle (`Instance`, `SetupInstance`, `Awake`, `Start`, `FindObjectOfType`) are engine bootstrapping. The manager is built by its constructor, and the agent receives it as a constructor argument.
- The `UpdatePawns` coroutine is an endless scheduler with a delay between agents. Only its effect is modelled: passes run one at a time (`Scoring.NextAgentSkipsClaimedSlot`). An exception inside a pass, which would stop the coroutine, is not modelled.
- Locomotion, `GetUberPosition`, Gizmos, Handles and `Debug.Log` are engine calls or output only.
- `Mathf.Sin` and `Mathf.Cos` are not modelled; the caller supplies their values through `Trig`.
- `Vector3.Distance`, `Vector2.normalized` and `Vector2.Dot` are not modelled; their per-slot values are inputs. The constraint that a dot product lies in [−1, 1] appears only where a lemma needs it.
- `Random.Range` is not modelled; the random draws are parameters.
- Float32 arithmetic is not modelled: reals stand for `float`. `Math.Round(x, 2)` is modelled exactly over the reals, halves to even, without the rounding error of doubles or the cast back to `float`.
- `Queries.DistanceFromTarget`: when `max = min` and some slot is exactly at the biased minimum, the source computes 0/0 and scores that slot NaN (the other slots score 0). The model returns None, because reals cannot carry NaN.
- `Scoring.PositionScoring.Evaluate`: requires, while the distance objective is enabled, that the distance normalisation has no 0/0 (`Scorable`). The source would go on with a NaN score, which reals cannot carry. The finite case `max = min` with no slot at the biased minimum is modelled: its distance objective is all zeros.
- `Scoring.PositionScoring.Evaluate`: on an empty table the source does not defer: it resets a null score array and fails with a null-reference error. The model returns `ready = false` and changes nothing.
- `Scoring.PositionScoring.Evaluate`: requires the random draws to be below the slot count whenever the table is non-empty. This holds for the source's `Random.Range(0, n)`.
- `Positions.PositionManager.SetPositionAssignment`: requires an index in range. The source would raise an index exception; every caller in the model passes an index in range.
- Caching of `_target` in `InitializeVariables`, and `_frameCount` and `frameDelay`, are not modelled: no modelled logic reads them.
