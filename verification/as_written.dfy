/** `initialize_tracks` of test4_2.py exactly as written (test4_2.py:39-144): separate
    dictionaries keyed by integers, a track list that keeps tombstones, and Python's
    exceptions returned as errors. The dictionaries are filled under the pool slot
    index (lines 118-121) but read under the list position (lines 89-107, 129-139),
    and the miss increment fires only for the track just created (lines 135-136).
    This model exists to exhibit those defects; Association is the corrected model. */
module AsWritten {
  import opened Wrappers
  import opened Gating
  import opened TrackIdPool
  import opened Ladder
  import Association
  import AssociationProperties

  /** A track as the source stores it: its id and its (measurement, state) history. */
  datatype RawTrack = RawTrack(trackId: nat, measurements: seq<(Measurement, Label)>)

  /** The exceptions the code as written can raise. `AttributeError` is the call of
      `startswith` on the None that `state_map.get` returns for a missing key. */
  datatype PyError = KeyError(key: nat) | AttributeError(position: nat) | IndexError(position: nat)

  /** The local state of `initialize_tracks`. */
  datatype Tables = Tables(
    tracks: seq<Option<RawTrack>>,
    pool: Pool,
    missCounts: map<nat, nat>,
    hitCounts: map<nat, nat>,
    tentativeIds: set<nat>,
    firmIds: set<nat>,
    stateMap: map<nat, Label>)

  const Initial: Tables := Tables([], [], map[], map[], {}, {}, map[])

  /** The list entry is live, has a last measurement, and that measurement gates with `m`. */
  predicate LiveAccepts(cfg: Association.Config, entry: Option<RawTrack>, m: Measurement) {
    && entry.Some?
    && |entry.value.measurements| > 0
    && Gate(cfg.thresholds, cfg.dist, m, entry.value.measurements[|entry.value.measurements| - 1].0)
  }

  /** The association loop (lines 73-87): the first live position whose last
      measurement gates, skipping tombstones. */
  function FirstGating(cfg: Association.Config, tracks: seq<Option<RawTrack>>, m: Measurement, from: nat)
    : (r: Result<Option<nat>, PyError>)
    decreases |tracks| - from
    ensures r.Success? && r.value.Some? ==>
              from <= r.value.value < |tracks| && LiveAccepts(cfg, tracks[r.value.value], m)
    ensures r.Success? ==> forall j :: from <= j < |tracks| && (r.value.None? || j < r.value.value) ==>
              !LiveAccepts(cfg, tracks[j], m)
    ensures (forall j :: from <= j < |tracks| && tracks[j].Some? ==> |tracks[j].value.measurements| > 0) ==> r.Success?
  {
    if from >= |tracks| then Success(None)
    else
      match tracks[from]
      case None => FirstGating(cfg, tracks, m, from + 1)
      case Some(t) =>
        if |t.measurements| == 0 then Failure(IndexError(from))
        else if Gate(cfg.thresholds, cfg.dist, m, t.measurements[|t.measurements| - 1].0) then Success(Some(from))
        else FirstGating(cfg, tracks, m, from + 1)
  }

  /** The hit branch (lines 88-109) at list position `p`. Every dictionary is read and
      written under the list position. A firm position only gains the measurement; a
      position already seen gets the ladder promotion; an unseen one is entered afresh
      with one hit. The measurement is then recorded with the state now filed under `p`. */
  function AssignHit(mode: Mode, tb: Tables, p: nat, m: Measurement): (r: Result<Tables, PyError>)
    requires p < |tb.tracks| && tb.tracks[p].Some?
    ensures r.Success? ==> |r.value.tracks| == |tb.tracks| && r.value.pool == tb.pool
    ensures r.Success? ==>
              && p in r.value.stateMap
              && var t := tb.tracks[p].value;
                 r.value.tracks == tb.tracks[p := Some(t.(measurements := t.measurements + [(m, r.value.stateMap[p])]))]
    ensures p in tb.firmIds ==>
              && (r.Success? <==> p in tb.stateMap)
              && (r.Success? ==> r.value.(tracks := tb.tracks) == tb)
    ensures p !in tb.firmIds && p in tb.tentativeIds && p !in tb.hitCounts ==> r == Failure(KeyError(p))
    ensures p !in tb.firmIds && p in tb.tentativeIds && p in tb.hitCounts && p in tb.stateMap ==>
              var hits := tb.hitCounts[p] + 1;
              && r.Success?
              && r.value.hitCounts == tb.hitCounts[p := hits]
              && r.value.missCounts == tb.missCounts[p := 0]
              && r.value.stateMap == tb.stateMap[p := Promote(mode, tb.stateMap[p], hits)]
              && r.value.firmIds == (if hits >= FirmThreshold(mode) then tb.firmIds + {p} else tb.firmIds)
              && r.value.tentativeIds == tb.tentativeIds
    ensures p !in tb.firmIds && p !in tb.tentativeIds ==>
              && r.Success?
              && r.value.tentativeIds == tb.tentativeIds + {p}
              && r.value.hitCounts == tb.hitCounts[p := 1]
              && r.value.missCounts == tb.missCounts[p := 0]
              && r.value.stateMap == tb.stateMap[p := Poss(1)]
              && r.value.firmIds == tb.firmIds
  {
    var prog := Progression(mode);
    var counted :-
      if p in tb.firmIds then Success(tb)
      else if p in tb.tentativeIds then
        if p !in tb.hitCounts then Failure(KeyError(p))
        else
          var hits := tb.hitCounts[p] + 1;
          var laddered := if hits < |prog| then tb.stateMap[p := prog[hits - 1]] else tb.stateMap;
          var firm := if hits >= FirmThreshold(mode) then tb.firmIds + {p} else tb.firmIds;
          var states := if hits >= FirmThreshold(mode) then laddered[p := Firm] else laddered;
          Success(tb.(hitCounts := tb.hitCounts[p := hits], missCounts := tb.missCounts[p := 0],
                      firmIds := firm, stateMap := states))
      else
        Success(tb.(tentativeIds := tb.tentativeIds + {p}, hitCounts := tb.hitCounts[p := 1],
                    missCounts := tb.missCounts[p := 0], stateMap := tb.stateMap[p := prog[0]]));
    if p !in counted.stateMap then Failure(KeyError(p))
    else
      var t := counted.tracks[p].value;
      Success(counted.(tracks := counted.tracks[p := Some(t.(measurements := t.measurements + [(m, counted.stateMap[p])]))]))
  }

  /** Track creation (lines 111-121). The track is appended at list position
      `|tb.tracks|`, but its counters and state are filed under the slot index the
      pool hands out, which is a different key as soon as a freed slot is reused. */
  function Create(mode: Mode, tb: Tables, m: Measurement): (r: (Tables, nat))
    ensures var a := Allocate(tb.pool);
            && r.1 == a.id
            && r.0.tracks == tb.tracks + [Some(RawTrack(a.id, [(m, Poss(1))]))]
            && r.0.pool == a.pool
            && r.0.missCounts == tb.missCounts[a.index := 0]
            && r.0.hitCounts == tb.hitCounts[a.index := 1]
            && r.0.tentativeIds == tb.tentativeIds + {a.index}
            && r.0.stateMap == tb.stateMap[a.index := Poss(1)]
            && r.0.firmIds == tb.firmIds
  {
    var a := Allocate(tb.pool);
    var first := Progression(mode)[0];
    (tb.(tracks := tb.tracks + [Some(RawTrack(a.id, [(m, first)]))],
         pool := a.pool,
         missCounts := tb.missCounts[a.index := 0],
         hitCounts := tb.hitCounts[a.index := 1],
         tentativeIds := tb.tentativeIds + {a.index},
         stateMap := tb.stateMap[a.index := first]),
     a.id)
  }

  /** The miss count list position `j` ends the miss loop with: one more than before
      exactly when its track carries the id just created (line 135). */
  function CountedMisses(tb: Tables, created: Option<nat>, j: nat): nat
    requires j < |tb.tracks| && tb.tracks[j].Some? && j in tb.missCounts
  {
    if created == Some(tb.tracks[j].value.trackId) then tb.missCounts[j] + 1 else tb.missCounts[j]
  }

  /** One pass of the miss and release loop (lines 125-142) at list position `p`: a
      tombstone is skipped; a live position needs a state filed under it, gains a miss
      exactly when its track carries the id just created, and is tombstoned, with the
      pool slot of the same index freed and its state dropped, once its count reaches
      the threshold of that state. */
  function MissAt(mode: Mode, tb: Tables, created: Option<nat>, p: nat): (r: Result<Tables, PyError>)
    requires p < |tb.tracks|
    ensures tb.tracks[p].None? ==> r == Success(tb)
    ensures tb.tracks[p].Some? && p !in tb.stateMap ==> r == Failure(AttributeError(p))
    ensures r.Success? && tb.tracks[p].Some? ==>
              && p in tb.stateMap && p in tb.missCounts
              && var count := CountedMisses(tb, created, p);
                 && r.value.missCounts == tb.missCounts[p := count]
                 && r.value.tentativeIds == tb.tentativeIds && r.value.hitCounts == tb.hitCounts
                 && r.value.firmIds == tb.firmIds
                 && (count < MissThreshold(mode, tb.stateMap[p]) ==>
                       r.value.tracks == tb.tracks && r.value.pool == tb.pool && r.value.stateMap == tb.stateMap)
                 && (count >= MissThreshold(mode, tb.stateMap[p]) ==>
                       && p < |tb.pool|
                       && r.value.tracks == tb.tracks[p := None]
                       && r.value.pool == tb.pool[p := Slot(tb.pool[p].id, Free)]
                       && r.value.stateMap == tb.stateMap - {p})
  {
    match tb.tracks[p]
    case None => Success(tb)
    case Some(t) =>
      if p !in tb.stateMap then Failure(AttributeError(p))
      else
        var threshold := MissThreshold(mode, tb.stateMap[p]);
        var counted :-
          if created == Some(t.trackId) then
            if p in tb.missCounts then Success(tb.(missCounts := tb.missCounts[p := tb.missCounts[p] + 1]))
            else Failure(KeyError(p))
          else Success(tb);
        if p !in counted.missCounts then Failure(KeyError(p))
        else if counted.missCounts[p] >= threshold then
          match Release(counted.pool, p)
          case Failure(_) => Failure(IndexError(p))
          case Success(pool) =>
            Success(counted.(tracks := counted.tracks[p := None], pool := pool,
                             stateMap := counted.stateMap - {p}))
        else Success(counted)
  }

  /** The miss and release loop (lines 124-142) from list position `p` on; `created` is
      the id of the track created for this measurement, if one was. Positions before
      `p` and tombstones stay as they are, states are only dropped, and a pool slot
      changes only where the list position of the same index was tombstoned;
      MissSweepOutcome states what happens at each live position. */
  function MissSweep(mode: Mode, tb: Tables, created: Option<nat>, p: nat): (r: Result<Tables, PyError>)
    decreases |tb.tracks| - p
    ensures r.Success? ==> |r.value.tracks| == |tb.tracks| && |r.value.pool| == |tb.pool|
    ensures r.Success? ==> forall j :: 0 <= j < |tb.tracks| && tb.tracks[j].None? ==> r.value.tracks[j].None?
    ensures r.Success? ==> forall j :: 0 <= j < |tb.tracks| && j < p ==> r.value.tracks[j] == tb.tracks[j]
    ensures r.Success? ==> forall k :: k in r.value.stateMap ==> k in tb.stateMap
    ensures r.Success? ==> forall k :: k in tb.missCounts && k < p ==>
              k in r.value.missCounts && r.value.missCounts[k] == tb.missCounts[k]
    ensures r.Success? ==> forall i :: 0 <= i < |tb.pool| ==> r.value.pool[i].id == tb.pool[i].id
    ensures r.Success? ==> forall i :: 0 <= i < |tb.pool| && (i >= |tb.tracks| || r.value.tracks[i] == tb.tracks[i]) ==>
              r.value.pool[i] == tb.pool[i]
  {
    if p >= |tb.tracks| then Success(tb)
    else
      var next :- MissAt(mode, tb, created, p);
      MissSweep(mode, next, created, p + 1)
  }

  /** What the miss loop does to a live list position `j` from `p` on: the position
      had a state filed under it, its miss count ends as CountedMisses, and it is
      tombstoned exactly when that count reaches its state's threshold, in which case
      the pool slot with index `j` ends free and the state is dropped. */
  lemma {:induction false} MissSweepOutcome(mode: Mode, tb: Tables, created: Option<nat>, p: nat, j: nat)
    requires p <= j < |tb.tracks| && tb.tracks[j].Some?
    requires MissSweep(mode, tb, created, p).Success?
    ensures var r := MissSweep(mode, tb, created, p).value;
            && j in tb.stateMap && j in tb.missCounts && j in r.missCounts
            && r.missCounts[j] == CountedMisses(tb, created, j)
            && (r.tracks[j].None? <==> CountedMisses(tb, created, j) >= MissThreshold(mode, tb.stateMap[j]))
            && (r.tracks[j].Some? ==> r.tracks[j] == tb.tracks[j])
            && (r.tracks[j].None? ==> j < |tb.pool| && r.pool[j].status == Free && j !in r.stateMap)
    decreases |tb.tracks| - p
  {
    var next := MissAt(mode, tb, created, p).value;
    var r := MissSweep(mode, next, created, p + 1).value;
    assert MissSweep(mode, tb, created, p).value == r;
    if j == p {
      assert r.tracks[j] == next.tracks[j];
    } else {
      MissSweepOutcome(mode, next, created, p + 1, j);
      assert next.tracks[j] == tb.tracks[j];
      assert CountedMisses(next, created, j) == CountedMisses(tb, created, j);
    }
  }

  /** One iteration of the measurement loop (lines 65-142). */
  function Step(cfg: Association.Config, tb: Tables, m: Measurement): (r: Result<Tables, PyError>)
    ensures r.Success? ==> |tb.tracks| <= |r.value.tracks| <= |tb.tracks| + 1
  {
    var found :- FirstGating(cfg, tb.tracks, m, 0);
    match found
    case Some(p) =>
      var afterHit :- AssignHit(cfg.mode, tb, p, m);
      MissSweep(cfg.mode, afterHit, None, 0)
    case None =>
      var created := Create(cfg.mode, tb, m);
      MissSweep(cfg.mode, created.0, Some(created.1), 0)
  }

  /** `initialize_tracks` as written: the loop over the stream, stopping at the first
      exception. */
  function Run(cfg: Association.Config, ms: seq<Measurement>): (r: Result<Tables, PyError>)
    decreases |ms|
    ensures r.Success? ==> |r.value.tracks| <= |ms|
  {
    if |ms| == 0 then Success(Initial)
    else
      var tb :- Run(cfg, ms[..|ms| - 1]);
      Step(cfg, tb, ms[|ms| - 1])
  }

  /** As written, the track created for the first measurement is counted as missed in
      its own cycle and released at once: no live track remains, and its slot is free.
      The corrected model keeps that track. */
  lemma FreshTrackEvicted(cfg: Association.Config, m: Measurement)
    ensures Run(cfg, [m]).Success?
    ensures Run(cfg, [m]).value.tracks == [None]
    ensures Run(cfg, [m]).value.pool == [Slot(1, Free)]
    ensures Run(cfg, [m]).value.stateMap == map[]
    ensures Association.Run(cfg, [m]).arena[0].Some?
  {
    assert [m][..0] == [];
    var created := Create(cfg.mode, Initial, m);
    assert created.0.stateMap == map[0 := Poss(1)];
    assert created.0.missCounts == map[0 := 0];
    assert Step(cfg, Initial, m) == MissSweep(cfg.mode, created.0, Some(1), 0);
    assert Association.Run(cfg, [m]) == Association.Step(cfg, Association.Empty, m);
    AssociationProperties.StepCreates(cfg, Association.Empty, m);
  }

  /** As written, every second measurement raises: the track made for it sits at list
      position 1, but its state was filed under slot index 0, so `state_map.get(1)` is
      None and `get_miss_threshold` calls `startswith` on it. */
  lemma SecondMeasurementFails(cfg: Association.Config, m1: Measurement, m2: Measurement)
    ensures Run(cfg, [m1, m2]) == Failure(AttributeError(1))
  {
    FreshTrackEvicted(cfg, m1);
    assert [m1, m2][..1] == [m1];
    var tb := Run(cfg, [m1]).value;
    assert FirstGating(cfg, tb.tracks, m2, 0) == Success(None);
    var created := Create(cfg.mode, tb, m2);
    assert Allocate(tb.pool).index == 0;
    assert created.0.stateMap == map[0 := Poss(1)];
    assert |created.0.tracks| == 2 && created.0.tracks[0].None? && created.0.tracks[1].Some?;
    assert Step(cfg, tb, m2) == MissSweep(cfg.mode, created.0, Some(created.1), 0);
    assert MissSweep(cfg.mode, created.0, Some(created.1), 0) == MissSweep(cfg.mode, created.0, Some(created.1), 1);
  }

  /** Hence no stream of two or more measurements runs to completion as written. */
  lemma {:induction false} LongStreamsFail(cfg: Association.Config, ms: seq<Measurement>)
    requires |ms| >= 2
    ensures Run(cfg, ms).Failure?
    decreases |ms|
  {
    if |ms| == 2 {
      assert ms == [ms[0], ms[1]];
      SecondMeasurementFails(cfg, ms[0], ms[1]);
    } else {
      LongStreamsFail(cfg, ms[..|ms| - 1]);
    }
  }
}
