# Track initiation, modelled in Dafny

This project models the track-initiation core of a radar measurement tracker. The tracker reads a time-ordered stream of detections. Each detection has an azimuth, an elevation, a range, a Doppler value and a timestamp. The tracker decides which detections belong to the same target and promotes each candidate track along an M-of-N confirmation ladder (Poss, Tentative, Firm). It evicts a track that misses too many measurements and recycles the track's id through a slot pool.

The repository holds two diverging copies of this logic:

- `test4_2.py` has numbered labels (`Poss1`, `Tentative2`, ...) and thresholds that depend on the mode.
- `test1.py` has unnumbered labels and a flat threshold table.

Both copies share the same pool, gate and mode functions (`test1.py:16-36` repeats `test4_2.py:16-36`), so `Gating` and `TrackIdPool` cite the latter.

Modules:

- `Wrappers` (`wrappers.dfy`): the `Option` and `Result` types.
- `Gating` (`gating.dfy`): measurements and the gate. The gate is a strict Doppler test, a strict range test and a non-strict time test, joined by AND. The Euclidean distance is an abstract `Distance` function carried in the configuration.
- `TrackIdPool` (`track_id_pool.dfy`): `get_next_track_id` and `release_track_id` over a sequence of `{id, Free|Occupied}` slots.
- `Ladder` (`ladder.dfy`): contains:
  - the mode and its selection from text;
  - the progression tables and the firm threshold;
  - the promotion rule applied on a hit;
  - a closed-form `ExpectedState`;
  - the miss-threshold table.
- `Association` (`association.dfy`): the corrected association and lifecycle step, folded over the stream by `Run`.
  - Tracks live in an arena, a `seq<Option<Track>>` that only grows. An evicted track leaves `None` at its position.
  - Each track carries its own hit and miss counters, its state and the pool slot it holds.
  - The invariant `Valid` holds after every step:
    - the state agrees with the hit count;
    - misses stay under the state's threshold;
    - slots are distinct, each one is occupied by its own track, and no slot leaks;
    - the firm set agrees with the Firm states.
- `AssociationProperties` (`association_properties.dfy`): what one step does. It covers first-fit matching, the hit update, creation, the per-track miss and eviction, and the three-hit scenario.
- `AsWritten` (`as_written.dfy`): `initialize_tracks` of `test4_2.py` exactly as written. It keeps the dictionaries keyed by integers and returns Python's exceptions as errors. It is used for the findings below.
- `Legacy` (`legacy.dfy`): `initialize_tracks` of `test1.py` as written. This includes its miss pass, which removes tracks while iterating.

## Semantics chosen for the miss step

The two copies disagree on the miss and eviction step, and both are defective (see Findings). The `Association` model uses these rules:

- Every live track that did not take the current measurement gets exactly one more miss.
- A track evicted by a step is tombstoned, and its slot is released.
- A track is evicted once its misses reach the threshold of its current state. The threshold table is `get_miss_threshold` of `test4_2.py:57-63`:
  - Poss: 1;
  - Tentative: 2 in three-state mode, else 3;
  - Firm: 3 in three-state mode, else 5.
- The track that took the measurement, whether an existing one or the one just created, gets no miss.

`test1.py:108-115` uses a flat table instead: Pos 1, Tentative 2, Firm 3 in every mode. `Legacy.FlatThresholdIsThreeStateRow` proves that this is the three-state row of the table above.

All other behaviour follows `test4_2.py` literally:

- A firm track that gates only records the measurement. Its hit and miss counters stay unchanged, and its miss counter is not reset (`test4_2.py:89`).
- A promotion takes the table entry only while `hits < len(progression)`. The seven-state table has six entries, so the sixth hit in seven-state mode keeps `Tentative3`, and the seventh hit makes the track Firm. A summary of the ladder as `progression[min(hits, len) - 1]` would instead give Firm at six hits. The code does not do that, and `Ladder.LadderWalks` states what it does.
- Releasing an index past the end of the pool fails, as Python's `IndexError` does. Releasing a slot that is already free sets it free again without complaint, as the code does.

## Model

| member | source | states |
|---|---|---|
| Gating.Gate | test4_2.py:82-87 | the gate accepts iff the Doppler difference lies strictly inside (−threshold, threshold), the distance is strictly below the range threshold, and the time difference is at most the time threshold |
| Gating.GateBoundaries | test4_2.py:17-22 | a Doppler difference or a distance equal to its threshold is rejected; a time difference equal to its threshold is accepted |
| Gating.DopplerCorrelation | test4_2.py:17-18 | the Doppler test holds iff the difference lies strictly between −threshold and threshold, so it never holds for a non-positive threshold |
| Gating.RangeGate | test4_2.py:21-22 | a distance at or above the threshold is rejected, and no non-negative distance passes a non-positive threshold |
| Gating.DopplerSymmetric | test4_2.py:17-18 | the Doppler test gives the same answer with the two values swapped |
| Gating.GateMonotone | test4_2.py:87 | widening all three thresholds never turns an accepted measurement into a rejected one |
| TrackIdPool.FirstFree | test4_2.py:26-29 | the scan returns the lowest free index with every lower slot occupied, or none when all slots are occupied |
| TrackIdPool.Allocate | test4_2.py:25-32 | reuses the lowest free slot (same id, same index, length unchanged, now occupied) or, with none free, appends one occupied slot with id old length + 1 at index old length; no other slot changes; the ids stay 1, 2, 3, ... in order |
| TrackIdPool.Release | test4_2.py:35-36 | fails exactly for an index past the end; otherwise frees that one slot, keeps its id and changes nothing else |
| TrackIdPool.OccupiedIdsDistinct | test4_2.py:30-31 | in a pool the allocator built, occupied slots carry pairwise distinct ids |
| TrackIdPool.AllocateThenRelease | test4_2.py:25-36 | releasing what was just allocated restores the pool, plus a free slot if allocation grew it |
| TrackIdPool.ReleaseThenAllocateReuses | test4_2.py:25-36 | a released slot with only occupied slots below it is handed out next, with its old id, and the pool is as before the release |
| TrackIdPool.AllocateGrowsOnlyWhenFull | test4_2.py:26-32 | allocation grows the pool iff no slot is free |
| Ladder.FirmThreshold | test4_2.py:159-167 | the number each mode stands for is 3, 5 or 7, and it is the leading digit of the mode's name |
| Ladder.SelectInitiationMode | test4_2.py:159-167 | accepts exactly '3-state', '5-state' and '7-state'; gives back the mode of that name, whose firm threshold is the leading digit; rejects every other text |
| Ladder.SelectInvertsModeName | test4_2.py:159-167 | selecting by a mode's own name yields that mode, so the names are distinct |
| Ladder.Progression | test4_2.py:49-54 | every mode has a table of at least three entries, at most its firm threshold long; it starts at Poss1, ends at Firm, has no Firm before the end, and never goes down in category |
| Ladder.ProgressionOrdered | test4_2.py:49-53 | any later table entry is at least as high in category as any earlier one |
| Ladder.Promote | test4_2.py:94-99 | with the incremented count: the table entry while the count is below the table length, the current state held between the table length and the firm threshold, and Firm exactly from the threshold on (or when already Firm and held) |
| Ladder.PromoteFollowsLadder | test4_2.py:94-99 | the hit rule takes a state that matches its hit count to the state the incremented count calls for |
| Ladder.ExpectedFirmIff | test4_2.py:97-99 | a track is Firm iff its hit count has reached the firm threshold |
| Ladder.ExpectedFirstState | test4_2.py:116 | one hit means the first table entry, Poss1 |
| Ladder.ExpectedStateMonotone | test4_2.py:94-99 | more hits never lower a track's category |
| Ladder.LadderWalks | test4_2.py:49-53 | the state reached after each hit count in each mode, including Tentative3 held at the sixth hit in seven-state mode |
| Ladder.MissThreshold | test4_2.py:57-63 | Poss 1; Tentative 2 in three-state mode, else 3; Firm 3 in three-state mode, else 5 |
| Ladder.MissThresholdFollowsCategory | test4_2.py:57-63 | a higher category never tolerates fewer misses |
| Ladder.MissThresholdGrowsWithHits | test4_2.py:57-63 | the eviction threshold never shrinks as a track gains hits |
| Association.FirstMatch | test4_2.py:73-87 | first-fit: the result is a live track that gates, and no live track before it gates; none means that no live track gates; tombstones are skipped |
| Association.NewTrack | test4_2.py:113-121 | a new track has one hit, no miss, state Poss1 and the measurement as its only history entry |
| Association.HitUpdate | test4_2.py:89-99 | hits go up by one, misses reset to 0, the measurement is appended with the new state; the state is the table entry while the count is below the table length and the firm threshold, Firm from the threshold on, and matches the new hit count |
| Association.FirmHit | test4_2.py:106-107 | a gating firm track keeps its counters and state and only gains the history entry |
| Association.Associate | test4_2.py:70-121 | the matched position is the first gating track, or a new one appended at the end; every other arena entry is unchanged |
| Association.MissOutcome | test4_2.py:128-142 | an unmatched track gains exactly one miss; the track is evicted iff its count reaches its state's threshold; a survivor stays under that threshold |
| Association.Sweep | test4_2.py:124-142 | each arena entry becomes its miss outcome; ids in the pool stay; free slots stay free; each evicted track's slot ends free; only slots of evicted tracks change |
| Association.AssociateValid | test4_2.py:70-121 | the association phase keeps the invariant, names a live matched track and only adds to the firm set |
| Association.SweepValid | test4_2.py:124-142 | the miss pass keeps the invariant |
| Association.SweepAccounted | test4_2.py:138-141 | after the miss pass, every occupied slot still belongs to a live track |
| Association.Step | test4_2.py:65-142 | one measurement step keeps the invariant, and the firm set only grows |
| Association.Run | test4_2.py:39-144 | after any stream the tracker satisfies the invariant and holds at most one track per measurement |
| AssociationProperties.StepMatched | test4_2.py:87-109 | a matched track is the only one to gain the measurement; a non-firm one gets one more hit, zero misses and the state its count calls for; a firm one keeps its counters; no track is added |
| AssociationProperties.StepCreates | test4_2.py:111-121 | with no gating track exactly one track is added, in the pool's allocated slot, with one hit, no miss and Poss1, and it survives the step; no older track gains the measurement |
| AssociationProperties.StepMisses | test4_2.py:134-142 | an unmatched live track gains exactly one miss and is evicted, its slot freed, iff that reaches its state's threshold |
| AssociationProperties.PossEvictedAfterOneMiss | test4_2.py:58-59 | a Poss track that misses one measurement is evicted and its slot freed |
| AssociationProperties.OutOfRangeStartsTrack | test4_2.py:84-87 | a measurement outside every live track's range gate starts a new track, whatever the Doppler and time tests say |
| AssociationProperties.LiveIdsDistinct | test4_2.py:113-121 | live tracks carry pairwise distinct ids |
| AssociationProperties.RunEmpty | test4_2.py:40-41 | an empty stream leaves no track and an empty pool |
| AssociationProperties.RunFirmIdsGrow | test4_2.py:97-98 | the firm set after a prefix of the stream is contained in the firm set after the whole stream |
| AssociationProperties.ThreeHitsMakeFirm | test4_2.py:49-50 | three identical measurements at t = 0, 1, 2 in three-state mode with gates 5/50/2 give one track with history states Poss1, Tentative1, Firm and three hits |
| AsWritten.FirstGating | test4_2.py:73-87 | first-fit over the list: the position found is live and its last measurement gates, no earlier live position gates, tombstones are skipped, and the search cannot fail while every live track has a measurement |
| AsWritten.AssignHit | test4_2.py:88-109 | with every dictionary keyed by the list position: a firm position only gains the measurement; a position already entered gets hits + 1, misses 0, the promoted state and, from the firm threshold on, a place in the firm set; an unseen position is entered with one hit, no miss and Poss1; a position marked tentative without a hit count raises KeyError; the measurement is appended with the state now filed, and nothing else in the list or the pool changes |
| AsWritten.Create | test4_2.py:111-121 | appends one live track carrying the allocated id and the first measurement as Poss1, takes the allocated pool, and files miss 0, hit 1, the tentative mark and Poss1 under the allocated slot index rather than the list position |
| AsWritten.MissAt | test4_2.py:125-142 | at one list position: a tombstone is skipped; a live position with no state filed under it raises AttributeError; otherwise it gains a miss exactly when its track carries the id just created, and once the count reaches its state's threshold it is tombstoned, the pool slot of the same index is freed and its state dropped |
| AsWritten.MissSweep | test4_2.py:124-142 | the miss loop keeps the list and pool lengths, leaves earlier positions and tombstones alone, only drops states, keeps every slot id, and changes a pool slot only where the list position of the same index was tombstoned |
| AsWritten.MissSweepOutcome | test4_2.py:129-142 | every live position ends with the miss count line 135 gives it (one more only for the track just created), is tombstoned exactly when that count reaches the threshold of the state filed under it, and then has the slot of the same index free and its state dropped |
| AsWritten.Step | test4_2.py:65-142 | a step that completes adds at most one track to the list |
| AsWritten.Run | test4_2.py:39-144 | a run that completes holds at most one list entry per measurement |
| AsWritten.FreshTrackEvicted | test4_2.py:134-141 | as written, the track made for a first measurement is released in its own cycle, leaving no live track and a free slot; the corrected model keeps it |
| AsWritten.SecondMeasurementFails | test4_2.py:129-132 | as written, every two-measurement stream raises when the state of list position 1 is looked up |
| AsWritten.LongStreamsFail | test4_2.py:65-144 | as written, no stream of two or more measurements completes |
| Legacy.Progression | test1.py:48-53 | the unnumbered tables are the numbered ones with the numbers dropped |
| Legacy.FlatMissThreshold | test1.py:108-115 | Pos 1, Tentative 2, Firm 3, in every mode |
| Legacy.FlatThresholdIsThreeStateRow | test1.py:108-115 | the flat table equals the three-state row of the mode-dependent table and never exceeds any mode's row |
| Legacy.FirstGating | test1.py:62-73 | the first track whose last measurement gates, with no earlier one gating; this always succeeds when every track has a measurement |
| Legacy.AssignHit | test1.py:74-83 | succeeds iff the id has a hit counter; then that counter goes up by one, the miss counter is reset, the measurement is appended and only that track changes; the stage is the table entry below the table length, kept between the table length and the firm threshold, and Firm from the threshold on, when the id also joins the firm set, which is otherwise unchanged |
| Legacy.Create | test1.py:88-97 | appends exactly one track, with the allocated id, stage Pos and the measurement, leaves the earlier ones alone, takes the allocated pool, and sets that id's hit count to 1 and miss count to 0 |
| Legacy.IndexOf | test1.py:119 | returns the first position holding the value, with no occurrence before it, and none exactly when the value is absent |
| Legacy.RemoveFirst | test1.py:120 | removes exactly the first occurrence of the element and keeps the order of the rest |
| Legacy.MissSweep | test1.py:100-120 | never lengthens the list or changes the pool's size; does nothing after a match |
| Legacy.Step | test1.py:55-120 | a step that completes adds at most one track and at most one pool slot |
| Legacy.Run | test1.py:39-122 | a run that completes holds at most one track and at most one pool slot per measurement |
| Legacy.MissSweepIdle | test1.py:100-102 | with every miss counter at zero the miss pass changes nothing |
| Legacy.PromoteMatchesLadder | test1.py:79-83 | the unnumbered promotion rule follows the category of the numbered ladder, firm tracks included |
| Legacy.AssignHitValid | test1.py:74-83 | a hit, on a firm track or not, succeeds and keeps the invariant |
| Legacy.CreateValid | test1.py:88-97 | creation keeps the invariant: with all slots occupied the new track gets id length + 1 |
| Legacy.StepValid | test1.py:55-120 | every step succeeds and keeps the invariant |
| Legacy.RunNeverEvicts | test1.py:97-102 | every run succeeds, all miss counters stay 0, and no slot is ever freed |
| Legacy.FirstMeasurementCreates | test1.py:88-97 | the first measurement of any stream gives track 1 in slot 1, stage Pos, one hit, no miss |
| Legacy.SecondHitTentative | test1.py:73-83 | in three-state mode a second gating measurement takes that track to Tentative with two hits |
| Legacy.ThirdHitFirm | test1.py:73-83 | in three-state mode a third gating measurement makes the track Firm with three hits and puts it in the firm set |
| Legacy.ThreeHitsMakeFirm | test1.py:73-83 | three identical measurements at t = 0, 1, 2 in three-state mode give one track that goes Pos, Tentative, Firm with hit counts 1, 2, 3 |
| Legacy.PosTrackNeverEvicted | test1.py:101-102 | a Pos track missed by the next measurement stays with a zero miss counter, while the corrected model evicts it |

## Left out

- Spherical-to-Cartesian conversion and `np.linalg.norm` (`test4_2.py:8-14`, `82`): floating-point trigonometry. The distance is an abstract `Distance` parameter, and `Gating.ZeroOnSamePosition` is the one property the scenarios assume of it.
- Floating point: Doppler, range, time and thresholds are exact `real`s. NaN and infinity are not modelled.
- `load_measurements_from_csv` (`test4_2.py:148-156`): file I/O. Only its Doppler default of 1.0 is kept, as `Gating.DefaultDoppler`.
- The PyQt5 window, file dialogs, parsing of the threshold fields, output formatting and the event loop (`test4_2.py:171-327`): user interface.
- The unused `mode` argument of `initialize_tracks`: both copies work from the firm threshold instead, which `Ladder.FirmThreshold` gives.
- The branch for a matched track missing from `tentative_ids` (`test4_2.py:100-104`) cannot occur in `Association`, where every track is created with its counters. `AsWritten.AssignHit` keeps it.
- The fallback miss threshold for an unknown label (`test1.py:114-115`) cannot occur: `Legacy.Stage` holds only the three labels that the progression tables produce.
- The dictionaries `miss_counts`, `hit_counts` and `state_map`, which `test4_2.py` returns, become fields of each `Association.Track`.
- Legacy.MissSweep: its contract covers only sizes and the no-op after a match; `Legacy.IndexOf` and `Legacy.RemoveFirst` pin the two list operations it uses. The removal branch is modelled literally, including the skip over the track after a removed one, but `Legacy.RunNeverEvicts` shows that it is never reached.
- Spherical positions are carried only as data. No property depends on them except through the distance.

## Findings

| source | as written | input that shows it | evidently intended | confidence | as-written member | corrected member |
|---|---|---|---|---|---|---|
| test4_2.py:134-136 | a miss is counted only for the list entry whose id equals the id of the track just created, in the cycle it was created | a stream of one measurement: its Poss1 track gets a miss at once and is released | every live track that took no measurement gets one miss; the track just created survives its cycle | high; not executed | AsWritten.FreshTrackEvicted | AssociationProperties.StepCreates |
| test4_2.py:118-121 | counters and state are filed under the pool slot index but read under the list position (lines 89-107, 129-139) | any stream of two measurements: the second track sits at list position 1, `state_map.get(1)` is None and `startswith` raises | one record per track, found by its own position | high; not executed | AsWritten.SecondMeasurementFails | Association.Run |
| test1.py:101 | the miss counter is incremented only when it is already positive, and it starts at 0 | two measurements that do not gate with each other: the first Pos track is never evicted | a Pos track is evicted after one miss | high; not executed | Legacy.PosTrackNeverEvicted | AssociationProperties.PossEvictedAfterOneMiss |
