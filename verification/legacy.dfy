/** The earlier copy of track initiation, test1.py:38-122, as written: unnumbered
    state labels, counters keyed by track id, a hit update that also applies to firm
    tracks, and a miss pass with a flat threshold table (Pos 1, Tentative 2, Firm 3)
    that only touches counters that are already positive. Since a counter is only
    ever set to 0 or incremented under that guard, no miss is ever counted and no
    track is ever released in this copy. */
module Legacy {
  import opened Wrappers
  import opened Gating
  import opened TrackIdPool
  import Ladder
  import Association
  import AssociationProperties

  /** The state labels of this copy: 'Pos', 'Tentative', 'Firm'. */
  datatype Stage = Pos | Tentative | Firm

  /** The category of a numbered label of the later copy. */
  function StageOf(state: Ladder.Label): Stage {
    match state
    case Poss(_) => Pos
    case Tentative(_) => Tentative
    case Firm => Firm
  }

  /** The progression tables of this copy (test1.py:48-53): the later copy's tables
      with the numbers dropped. */
  function Progression(mode: Ladder.Mode): (p: seq<Stage>)
    ensures |p| == |Ladder.Progression(mode)|
    ensures forall i :: 0 <= i < |p| ==> p[i] == StageOf(Ladder.Progression(mode)[i])
  {
    match mode
    case ThreeState => [Pos, Tentative, Firm]
    case FiveState => [Pos, Pos, Tentative, Tentative, Firm]
    case SevenState => [Pos, Pos, Tentative, Tentative, Tentative, Firm]
  }

  /** The stage a track with `hits` hits must be in. */
  function ExpectedStage(mode: Ladder.Mode, hits: nat): Stage
    requires hits >= 1
  {
    StageOf(Ladder.ExpectedState(mode, hits))
  }

  /** The flat miss thresholds of this copy (test1.py:108-115), the same in every mode.
      The fallback to the firm threshold for an unknown label cannot arise here. */
  function FlatMissThreshold(stage: Stage): (n: nat)
    ensures n >= 1
    ensures stage == Pos ==> n == 1
    ensures stage == Tentative ==> n == 2
    ensures stage == Firm ==> n == 3
  {
    match stage
    case Pos => 1
    case Tentative => 2
    case Firm => 3
  }

  /** The flat table is the three-state row of the later copy's table, and never
      exceeds the row of any mode. */
  lemma FlatThresholdIsThreeStateRow(mode: Ladder.Mode, state: Ladder.Label)
    ensures FlatMissThreshold(StageOf(state)) == Ladder.MissThreshold(Ladder.ThreeState, state)
    ensures FlatMissThreshold(StageOf(state)) <= Ladder.MissThreshold(mode, state)
  {
  }

  datatype LegacyTrack = LegacyTrack(id: nat, state: Stage, measurements: seq<Measurement>)

  /** The exceptions this copy can raise; `ValueError` is `list.index` not finding
      an occupied slot with the track's id. */
  datatype PyError = KeyError(key: nat) | IndexError(position: nat) | ValueError(id: nat)

  /** The local state of `initialize_tracks` in this copy. */
  datatype Tables = Tables(
    tracks: seq<LegacyTrack>,
    pool: Pool,
    missCounts: map<nat, nat>,
    hitCounts: map<nat, nat>,
    firmIds: set<nat>)

  const Initial: Tables := Tables([], [], map[], map[], {})

  /** The track has a last measurement and it gates with `m`. */
  predicate Accepts(cfg: Association.Config, t: LegacyTrack, m: Measurement) {
    |t.measurements| > 0 && Gate(cfg.thresholds, cfg.dist, m, t.measurements[|t.measurements| - 1])
  }

  /** The association loop (test1.py:62-73): the first track whose last measurement gates. */
  function FirstGating(cfg: Association.Config, tracks: seq<LegacyTrack>, m: Measurement, from: nat)
    : (r: Result<Option<nat>, PyError>)
    decreases |tracks| - from
    ensures r.Success? && r.value.Some? ==> from <= r.value.value < |tracks|
    ensures (forall j :: from <= j < |tracks| ==> |tracks[j].measurements| > 0) ==> r.Success?
    ensures r.Success? && r.value.Some? ==> Accepts(cfg, tracks[r.value.value], m)
    ensures r.Success? ==> forall j :: from <= j < |tracks| && (r.value.None? || j < r.value.value) ==>
              !Accepts(cfg, tracks[j], m)
  {
    if from >= |tracks| then Success(None)
    else
      var t := tracks[from];
      if |t.measurements| == 0 then Failure(IndexError(from))
      else if Gate(cfg.thresholds, cfg.dist, m, t.measurements[|t.measurements| - 1]) then Success(Some(from))
      else FirstGating(cfg, tracks, m, from + 1)
  }

  /** The hit update (test1.py:74-83), applied to any matched track, firm or not. */
  function AssignHit(mode: Ladder.Mode, tb: Tables, p: nat, m: Measurement): (r: Result<Tables, PyError>)
    requires p < |tb.tracks|
    ensures tb.tracks[p].id in tb.hitCounts <==> r.Success?
    ensures r.Success? ==>
              var id := tb.tracks[p].id;
              && |r.value.tracks| == |tb.tracks|
              && r.value.tracks == tb.tracks[p := r.value.tracks[p]]
              && r.value.tracks[p].id == id
              && r.value.tracks[p].measurements == tb.tracks[p].measurements + [m]
              && r.value.hitCounts == tb.hitCounts[id := tb.hitCounts[id] + 1]
              && r.value.missCounts == tb.missCounts[id := 0]
              && r.value.pool == tb.pool
    ensures r.Success? ==>
              var id := tb.tracks[p].id;
              var hits := tb.hitCounts[id] + 1;
              var state := r.value.tracks[p].state;
              && (hits >= Ladder.FirmThreshold(mode) ==> state == Firm && r.value.firmIds == tb.firmIds + {id})
              && (hits < Ladder.FirmThreshold(mode) ==> r.value.firmIds == tb.firmIds)
              && (hits < |Progression(mode)| ==> state == Progression(mode)[hits - 1])
              && (|Progression(mode)| <= hits < Ladder.FirmThreshold(mode) ==> state == tb.tracks[p].state)
  {
    var t := tb.tracks[p];
    var id := t.id;
    if id !in tb.hitCounts then Failure(KeyError(id))
    else
      var hits := tb.hitCounts[id] + 1;
      var prog := Progression(mode);
      var laddered := if hits < |prog| then prog[hits - 1] else t.state;
      var firmNow := hits >= Ladder.FirmThreshold(mode);
      var state := if firmNow then Firm else laddered;
      var firm := if firmNow then tb.firmIds + {id} else tb.firmIds;
      Success(tb.(tracks := tb.tracks[p := LegacyTrack(id, state, t.measurements + [m])],
                  hitCounts := tb.hitCounts[id := hits],
                  missCounts := tb.missCounts[id := 0],
                  firmIds := firm))
  }

  /** Track creation (test1.py:88-97). */
  function Create(mode: Ladder.Mode, tb: Tables, m: Measurement): (r: Tables)
    ensures |r.tracks| == |tb.tracks| + 1 && r.tracks[..|tb.tracks|] == tb.tracks
    ensures |r.pool| <= |tb.pool| + 1
    ensures var a := Allocate(tb.pool);
            && r.tracks[|tb.tracks|] == LegacyTrack(a.id, Pos, [m])
            && r.pool == a.pool
            && r.hitCounts == tb.hitCounts[a.id := 1]
            && r.missCounts == tb.missCounts[a.id := 0]
            && r.firmIds == tb.firmIds
  {
    var a := Allocate(tb.pool);
    Tables(tb.tracks + [LegacyTrack(a.id, Progression(mode)[0], [m])],
           a.pool,
           tb.missCounts[a.id := 0],
           tb.hitCounts[a.id := 1],
           tb.firmIds)
  }

  /** `list.index`: the first position holding `x`, or none when `x` is absent
      (Python raises ValueError there). */
  function IndexOf<T(==)>(s: seq<T>, x: T): (r: Option<nat>)
    ensures r.Some? ==> r.value < |s| && s[r.value] == x && x !in s[..r.value]
    ensures r.None? <==> x !in s
  {
    if |s| == 0 then None
    else if s[0] == x then Some(0)
    else match IndexOf(s[1..], x)
      case None => None
      case Some(i) => assert s[1..][..i] == s[1..i + 1]; Some(i + 1)
  }

  /** `list.remove`: drop the first element equal to `x`, keeping the order of the rest. */
  function RemoveFirst(tracks: seq<LegacyTrack>, x: LegacyTrack): (r: seq<LegacyTrack>)
    requires x in tracks
    ensures |r| == |tracks| - 1
    ensures IndexOf(tracks, x).Some?
    ensures var i := IndexOf(tracks, x).value; r == tracks[..i] + tracks[i + 1..]
  {
    if tracks[0] == x then tracks[1..] else [tracks[0]] + RemoveFirst(tracks[1..], x)
  }

  /** The miss pass (test1.py:100-120) from list position `i` on. A removal inside the
      loop shifts the list under Python's iterator, so the track after a removed one
      is skipped; the model keeps that. */
  function MissSweep(tb: Tables, unassigned: bool, i: nat): (r: Result<Tables, PyError>)
    decreases |tb.tracks| + 1 - i
    ensures r.Success? ==> |r.value.tracks| <= |tb.tracks| && |r.value.pool| == |tb.pool|
    ensures !unassigned ==> r == Success(tb)
  {
    if i >= |tb.tracks| then Success(tb)
    else
      var t := tb.tracks[i];
      if unassigned && t.id in tb.missCounts && tb.missCounts[t.id] > 0 then
        var count := tb.missCounts[t.id] + 1;
        var counted := tb.(missCounts := tb.missCounts[t.id := count]);
        if count >= FlatMissThreshold(t.state) then
          match IndexOf(counted.pool, Slot(t.id, Occupied))
          case None => Failure(ValueError(t.id))
          case Some(idx) =>
            MissSweep(counted.(pool := Release(counted.pool, idx).value,
                               tracks := RemoveFirst(counted.tracks, t)), unassigned, i + 1)
        else MissSweep(counted, unassigned, i + 1)
      else MissSweep(tb, unassigned, i + 1)
  }

  /** One iteration of the measurement loop (test1.py:55-120). */
  function Step(cfg: Association.Config, tb: Tables, m: Measurement): (r: Result<Tables, PyError>)
    ensures r.Success? ==> |r.value.tracks| <= |tb.tracks| + 1 && |r.value.pool| <= |tb.pool| + 1
  {
    var found :- FirstGating(cfg, tb.tracks, m, 0);
    match found
    case Some(p) =>
      var afterHit :- AssignHit(cfg.mode, tb, p, m);
      MissSweep(afterHit, false, 0)
    case None =>
      MissSweep(Create(cfg.mode, tb, m), true, 0)
  }

  /** `initialize_tracks` of this copy, stopping at the first exception. */
  function Run(cfg: Association.Config, ms: seq<Measurement>): (r: Result<Tables, PyError>)
    decreases |ms|
    ensures r.Success? ==> |r.value.tracks| <= |ms| && |r.value.pool| <= |ms|
  {
    if |ms| == 0 then Success(Initial)
    else
      var tb :- Run(cfg, ms[..|ms| - 1]);
      Step(cfg, tb, ms[|ms| - 1])
  }

  /** What holds after every step of this copy: the i-th track has id i + 1 and the
      i-th slot, which is occupied; every miss counter is zero; the stage agrees with
      the hit count. */
  ghost predicate Valid(mode: Ladder.Mode, tb: Tables) {
    && |tb.pool| == |tb.tracks|
    && (forall i :: 0 <= i < |tb.tracks| ==> tb.pool[i] == Slot(i + 1, Occupied))
    && (forall i :: 0 <= i < |tb.tracks| ==> TrackValid(mode, tb, tb.tracks[i], i))
  }

  ghost predicate TrackValid(mode: Ladder.Mode, tb: Tables, t: LegacyTrack, i: nat) {
    && t.id == i + 1
    && |t.measurements| > 0
    && t.id in tb.hitCounts && tb.hitCounts[t.id] >= 1
    && t.id in tb.missCounts && tb.missCounts[t.id] == 0
    && t.state == ExpectedStage(mode, tb.hitCounts[t.id])
  }

  /** With every miss counter at zero the miss pass changes nothing. */
  lemma {:induction false} MissSweepIdle(tb: Tables, unassigned: bool, i: nat)
    requires forall j :: i <= j < |tb.tracks| ==> tb.tracks[j].id in tb.missCounts && tb.missCounts[tb.tracks[j].id] == 0
    ensures MissSweep(tb, unassigned, i) == Success(tb)
    decreases |tb.tracks| + 1 - i
  {
    if i < |tb.tracks| {
      MissSweepIdle(tb, unassigned, i + 1);
    }
  }

  /** The promotion rule of this copy tracks the numbered ladder category by category. */
  lemma PromoteMatchesLadder(mode: Ladder.Mode, hits: nat)
    requires hits >= 1
    ensures var prog := Progression(mode);
            var current := ExpectedStage(mode, hits);
            var laddered := if hits + 1 < |prog| then prog[hits] else current;
            (if hits + 1 >= Ladder.FirmThreshold(mode) then Firm else laddered) == ExpectedStage(mode, hits + 1)
  {
    Ladder.PromoteFollowsLadder(mode, Ladder.ExpectedState(mode, hits), hits);
  }

  /** A hit keeps the invariant, for firm and non-firm tracks alike. */
  lemma AssignHitValid(mode: Ladder.Mode, tb: Tables, p: nat, m: Measurement)
    requires Valid(mode, tb) && p < |tb.tracks|
    ensures AssignHit(mode, tb, p, m).Success?
    ensures Valid(mode, AssignHit(mode, tb, p, m).value)
  {
    var r := AssignHit(mode, tb, p, m).value;
    assert TrackValid(mode, tb, tb.tracks[p], p);
    PromoteMatchesLadder(mode, tb.hitCounts[p + 1]);
    forall i | 0 <= i < |r.tracks|
      ensures TrackValid(mode, r, r.tracks[i], i)
    {
      assert TrackValid(mode, tb, tb.tracks[i], i);
    }
  }

  /** Creation keeps the invariant: the pool is full, so the new track gets a fresh slot. */
  lemma CreateValid(mode: Ladder.Mode, tb: Tables, m: Measurement)
    requires Valid(mode, tb)
    ensures Valid(mode, Create(mode, tb, m))
  {
    var a := Allocate(tb.pool);
    assert a.index == |tb.pool|;
    var r := Create(mode, tb, m);
    Ladder.ExpectedFirstState(mode);
    forall i | 0 <= i < |r.tracks|
      ensures TrackValid(mode, r, r.tracks[i], i)
    {
      if i < |tb.tracks| {
        assert TrackValid(mode, tb, tb.tracks[i], i);
      }
    }
  }

  /** A step whose measurement gates with a track succeeds and keeps the invariant. */
  lemma StepHitValid(cfg: Association.Config, tb: Tables, m: Measurement, p: nat)
    requires Valid(cfg.mode, tb)
    requires FirstGating(cfg, tb.tracks, m, 0) == Success(Some(p))
    ensures Step(cfg, tb, m).Success?
    ensures Valid(cfg.mode, Step(cfg, tb, m).value)
  {
    AssignHitValid(cfg.mode, tb, p, m);
    var r := AssignHit(cfg.mode, tb, p, m).value;
    assert forall j :: 0 <= j < |r.tracks| ==> TrackValid(cfg.mode, r, r.tracks[j], j);
    MissSweepIdle(r, false, 0);
  }

  /** A step that starts a track succeeds and keeps the invariant. */
  lemma StepCreateValid(cfg: Association.Config, tb: Tables, m: Measurement)
    requires Valid(cfg.mode, tb)
    requires FirstGating(cfg, tb.tracks, m, 0) == Success(None)
    ensures Step(cfg, tb, m).Success?
    ensures Valid(cfg.mode, Step(cfg, tb, m).value)
  {
    CreateValid(cfg.mode, tb, m);
    var r := Create(cfg.mode, tb, m);
    assert forall j :: 0 <= j < |r.tracks| ==> TrackValid(cfg.mode, r, r.tracks[j], j);
    MissSweepIdle(r, true, 0);
  }

  /** Each step of this copy succeeds and keeps the invariant. */
  lemma StepValid(cfg: Association.Config, tb: Tables, m: Measurement)
    requires Valid(cfg.mode, tb)
    ensures Step(cfg, tb, m).Success?
    ensures Valid(cfg.mode, Step(cfg, tb, m).value)
  {
    assert forall j :: 0 <= j < |tb.tracks| ==> |tb.tracks[j].measurements| > 0 by {
      forall j | 0 <= j < |tb.tracks| ensures |tb.tracks[j].measurements| > 0 {
        assert TrackValid(cfg.mode, tb, tb.tracks[j], j);
      }
    }
    match FirstGating(cfg, tb.tracks, m, 0).value
    case Some(p) => StepHitValid(cfg, tb, m, p);
    case None => StepCreateValid(cfg, tb, m);
  }

  /** Every run of this copy succeeds, keeps every miss counter at zero and never
      frees a slot: one track per measurement that started a track, none released. */
  lemma {:induction false} RunNeverEvicts(cfg: Association.Config, ms: seq<Measurement>)
    ensures Run(cfg, ms).Success?
    ensures Valid(cfg.mode, Run(cfg, ms).value)
    ensures var tb := Run(cfg, ms).value;
            forall i :: 0 <= i < |tb.pool| ==> tb.pool[i].status == Occupied
    decreases |ms|
  {
    if |ms| > 0 {
      RunNeverEvicts(cfg, ms[..|ms| - 1]);
      StepValid(cfg, Run(cfg, ms[..|ms| - 1]).value, ms[|ms| - 1]);
    }
  }

  /** The first measurement of any stream creates track 1 in slot 1, in stage Pos. */
  lemma FirstMeasurementCreates(cfg: Association.Config, m0: Measurement)
    ensures Run(cfg, [m0]) == Success(Tables([LegacyTrack(1, Pos, [m0])], [Slot(1, Occupied)],
                                             map[1 := 0], map[1 := 1], {}))
  {
    assert [m0][..0] == [];
    var s1 := Tables([LegacyTrack(1, Pos, [m0])], [Slot(1, Occupied)], map[1 := 0], map[1 := 1], {});
    assert Run(cfg, [m0]) == Step(cfg, Initial, m0);
    assert Create(cfg.mode, Initial, m0) == s1;
    MissSweepIdle(s1, true, 0);
  }

  /** In three-state mode a second gating measurement takes track 1 to Tentative. */
  lemma SecondHitTentative(cfg: Association.Config, m0: Measurement, m1: Measurement)
    requires cfg.mode == Ladder.ThreeState && Gate(cfg.thresholds, cfg.dist, m1, m0)
    ensures Step(cfg, Tables([LegacyTrack(1, Pos, [m0])], [Slot(1, Occupied)], map[1 := 0], map[1 := 1], {}), m1)
            == Success(Tables([LegacyTrack(1, Tentative, [m0, m1])], [Slot(1, Occupied)], map[1 := 0], map[1 := 2], {}))
  {
    var s1 := Tables([LegacyTrack(1, Pos, [m0])], [Slot(1, Occupied)], map[1 := 0], map[1 := 1], {});
    var s2 := Tables([LegacyTrack(1, Tentative, [m0, m1])], [Slot(1, Occupied)], map[1 := 0], map[1 := 2], {});
    assert FirstGating(cfg, s1.tracks, m1, 0) == Success(Some(0));
    assert s1.hitCounts[1 := 2] == map[1 := 2] && s1.missCounts[1 := 0] == map[1 := 0];
    assert [m0] + [m1] == [m0, m1];
    assert s1.tracks[0 := LegacyTrack(1, Tentative, [m0, m1])] == s2.tracks;
    assert AssignHit(cfg.mode, s1, 0, m1) == Success(s2);
    MissSweepIdle(s2, false, 0);
  }

  /** In three-state mode a third gating measurement makes track 1 firm. */
  lemma ThirdHitFirm(cfg: Association.Config, m0: Measurement, m1: Measurement, m2: Measurement)
    requires cfg.mode == Ladder.ThreeState && Gate(cfg.thresholds, cfg.dist, m2, m1)
    ensures Step(cfg, Tables([LegacyTrack(1, Tentative, [m0, m1])], [Slot(1, Occupied)], map[1 := 0], map[1 := 2], {}), m2)
            == Success(Tables([LegacyTrack(1, Firm, [m0, m1, m2])], [Slot(1, Occupied)], map[1 := 0], map[1 := 3], {1}))
  {
    var s2 := Tables([LegacyTrack(1, Tentative, [m0, m1])], [Slot(1, Occupied)], map[1 := 0], map[1 := 2], {});
    var s3 := Tables([LegacyTrack(1, Firm, [m0, m1, m2])], [Slot(1, Occupied)], map[1 := 0], map[1 := 3], {1});
    assert FirstGating(cfg, s2.tracks, m2, 0) == Success(Some(0));
    assert s2.hitCounts[1 := 3] == map[1 := 3] && s2.missCounts[1 := 0] == map[1 := 0];
    assert [m0, m1] + [m2] == [m0, m1, m2];
    assert s2.tracks[0 := LegacyTrack(1, Firm, [m0, m1, m2])] == s3.tracks;
    assert s2.firmIds + {1} == {1};
    assert AssignHit(cfg.mode, s2, 0, m2) == Success(s3);
    MissSweepIdle(s3, false, 0);
  }

  /** Three identical measurements one time unit apart, in three-state mode with gates
      5, 50 and 2, build one track whose stage goes Pos, Tentative, Firm, with three hits. */
  lemma ThreeHitsMakeFirm(dist: Distance)
    requires ZeroOnSamePosition(dist)
    ensures var cfg := Association.Config(Thresholds(5.0, 50.0, 2.0), Ladder.ThreeState, dist);
            var m0 := Measurement(0.0, 0.0, 1000.0, DefaultDoppler, 0.0);
            var m1 := m0.(timestamp := 1.0);
            var m2 := m0.(timestamp := 2.0);
            && Run(cfg, [m0]) == Success(Tables([LegacyTrack(1, Pos, [m0])], [Slot(1, Occupied)],
                                                map[1 := 0], map[1 := 1], {}))
            && Run(cfg, [m0, m1]) == Success(Tables([LegacyTrack(1, Tentative, [m0, m1])], [Slot(1, Occupied)],
                                                    map[1 := 0], map[1 := 2], {}))
            && Run(cfg, [m0, m1, m2]) == Success(Tables([LegacyTrack(1, Firm, [m0, m1, m2])], [Slot(1, Occupied)],
                                                        map[1 := 0], map[1 := 3], {1}))
  {
    var cfg := Association.Config(Thresholds(5.0, 50.0, 2.0), Ladder.ThreeState, dist);
    var m0 := Measurement(0.0, 0.0, 1000.0, DefaultDoppler, 0.0);
    var m1 := m0.(timestamp := 1.0);
    var m2 := m0.(timestamp := 2.0);
    assert [m0, m1, m2][..2] == [m0, m1] && [m0, m1][..1] == [m0];
    assert SamePosition(m1, m0) && SamePosition(m2, m1);
    FirstMeasurementCreates(cfg, m0);
    SecondHitTentative(cfg, m0, m1);
    ThirdHitFirm(cfg, m0, m1, m2);
    assert Run(cfg, [m0, m1]) == Step(cfg, Run(cfg, [m0]).value, m1);
    assert Run(cfg, [m0, m1, m2]) == Step(cfg, Run(cfg, [m0, m1]).value, m2);
  }

  /** A Pos track that the next measurement does not gate with stays in this copy, with
      its miss counter still zero; the corrected model evicts it after that one miss. */
  lemma PosTrackNeverEvicted(cfg: Association.Config, m0: Measurement, m1: Measurement)
    requires !Gate(cfg.thresholds, cfg.dist, m1, m0)
    ensures Run(cfg, [m0, m1]).Success?
    ensures var tb := Run(cfg, [m0, m1]).value;
            && |tb.tracks| == 2
            && tb.tracks[0] == LegacyTrack(1, Pos, [m0])
            && 1 in tb.missCounts && tb.missCounts[1] == 0
    ensures Association.Run(cfg, [m0, m1]).arena[0].None?
  {
    assert [m0, m1][..1] == [m0] && [m0][..0] == [];
    var s1 := Create(cfg.mode, Initial, m0);
    assert s1 == Tables([LegacyTrack(1, Progression(cfg.mode)[0], [m0])], [Slot(1, Occupied)], map[1 := 0], map[1 := 1], {});
    assert Run(cfg, [m0]) == Step(cfg, Initial, m0);
    MissSweepIdle(s1, true, 0);
    assert FirstGating(cfg, s1.tracks, m1, 0) == Success(None);
    var s2 := Create(cfg.mode, s1, m1);
    assert s2.tracks[0] == s1.tracks[0];
    MissSweepIdle(s2, true, 0);
    assert Run(cfg, [m0, m1]) == Step(cfg, s1, m1);
    CorrectedEvicts(cfg, m0, m1);
  }

  /** The corrected model on the same two measurements evicts the first track. */
  lemma CorrectedEvicts(cfg: Association.Config, m0: Measurement, m1: Measurement)
    requires !Gate(cfg.thresholds, cfg.dist, m1, m0)
    ensures Association.Run(cfg, [m0, m1]).arena[0].None?
  {
    assert [m0, m1][..1] == [m0] && [m0][..0] == [];
    var s1 := Association.Run(cfg, [m0]);
    assert Association.Run(cfg, []) == Association.Empty;
    assert s1 == Association.Step(cfg, Association.Empty, m0);
    AssociationProperties.StepCreates(cfg, Association.Empty, m0);
    assert Association.Run(cfg, [m0, m1]) == Association.Step(cfg, s1, m1);
    assert Association.FirstMatch(cfg, s1.arena, m1, 0).None?;
    AssociationProperties.PossEvictedAfterOneMiss(cfg, s1, m1, 0);
  }
}
