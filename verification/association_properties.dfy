/** Properties of one association step and of the fold, stated against the
    source's promises (test4_2.py:65-144). */
module AssociationProperties {
  import opened Wrappers
  import opened Gating
  import opened TrackIdPool
  import opened Ladder
  import opened Association

  /** When a live track takes the measurement it is the first gating track in
      creation order; it alone gets the measurement appended, and a track that is not
      firm yet gets the hit update. A firm track keeps its counters. */
  lemma StepMatched(cfg: Config, s: Tracker, m: Measurement, k: nat)
    requires Valid(cfg.mode, s)
    requires FirstMatch(cfg, s.arena, m, 0) == Some(k)
    ensures var r := Step(cfg, s, m);
            var t := s.arena[k].value;
            && |r.arena| == |s.arena|
            && r.arena[k].Some?
            && r.arena[k].value.history == t.history + [Entry(m, r.arena[k].value.state)]
            && (k !in s.firmIds ==>
                  && r.arena[k].value.hits == t.hits + 1
                  && r.arena[k].value.misses == 0
                  && r.arena[k].value.state == ExpectedState(cfg.mode, t.hits + 1))
            && (k in s.firmIds ==> r.arena[k].value == t.(history := r.arena[k].value.history))
            && (forall j :: 0 <= j < |s.arena| && j != k && r.arena[j].Some? ==>
                  r.arena[j].value.history == s.arena[j].value.history)
  {
    var a := Associate(cfg, s, m);
    AssociateValid(cfg, s, m);
    var t := s.arena[k].value;
    assert TrackValid(cfg.mode, t, s.pool);
    var swept := Sweep(cfg.mode, a.tracker.arena, a.tracker.pool, a.matched, 0);
    assert a.matched == k;
    assert swept.0[k] == Swept(cfg.mode, a.tracker.arena[k], true);
  }

  /** When no live track gates, exactly one track is appended: it holds the slot the
      pool allocates, one hit, no miss and the first state of the table. */
  lemma StepCreates(cfg: Config, s: Tracker, m: Measurement)
    requires Valid(cfg.mode, s)
    requires FirstMatch(cfg, s.arena, m, 0).None?
    ensures var r := Step(cfg, s, m);
            var a := Allocate(s.pool);
            && |r.arena| == |s.arena| + 1
            && r.arena[|s.arena|] == Some(Track(a.id, a.index, [Entry(m, Poss(1))], 1, 0, Poss(1)))
            && (forall j :: 0 <= j < |s.arena| && s.arena[j].Some? ==> !Accepts(cfg, s.arena[j].value, m))
            && (forall j :: 0 <= j < |s.arena| && r.arena[j].Some? ==>
                  r.arena[j].value.history == s.arena[j].value.history)
  {
    var a := Associate(cfg, s, m);
    var al := Allocate(s.pool);
    var n := |s.arena|;
    var swept := Sweep(cfg.mode, a.tracker.arena, a.tracker.pool, a.matched, 0);
    assert a.matched == n;
    assert a.tracker.arena[n] == Some(NewTrack(cfg.mode, al.id, al.index, m));
    assert swept.0[n] == Swept(cfg.mode, a.tracker.arena[n], true);
  }

  /** Every live track that did not take the measurement gets exactly one more miss,
      and is evicted, its slot freed, exactly when that reaches its state's threshold. */
  lemma StepMisses(cfg: Config, s: Tracker, m: Measurement, j: nat)
    requires Valid(cfg.mode, s)
    requires j < |s.arena| && s.arena[j].Some?
    requires FirstMatch(cfg, s.arena, m, 0) != Some(j)
    ensures var r := Step(cfg, s, m);
            var t := s.arena[j].value;
            && r.arena[j] == (if t.misses + 1 >= MissThreshold(cfg.mode, t.state) then None
                              else Some(t.(misses := t.misses + 1)))
            && (r.arena[j].None? ==> r.pool[t.slot].status == Free)
  {
    var a := Associate(cfg, s, m);
    var swept := Sweep(cfg.mode, a.tracker.arena, a.tracker.pool, a.matched, 0);
    assert a.tracker.arena[j] == s.arena[j];
    assert a.matched != j;
    assert swept.0[j] == Swept(cfg.mode, s.arena[j], false);
  }

  /** A track still in a Poss state is evicted by the first measurement it misses. */
  lemma PossEvictedAfterOneMiss(cfg: Config, s: Tracker, m: Measurement, j: nat)
    requires Valid(cfg.mode, s)
    requires j < |s.arena| && s.arena[j].Some? && s.arena[j].value.state.Poss?
    requires FirstMatch(cfg, s.arena, m, 0) != Some(j)
    ensures Step(cfg, s, m).arena[j].None?
    ensures Step(cfg, s, m).pool[s.arena[j].value.slot].status == Free
  {
    StepMisses(cfg, s, m, j);
  }

  /** A measurement outside the range gate of every live track starts a new track,
      whatever its Doppler and time differences are. */
  lemma OutOfRangeStartsTrack(cfg: Config, s: Tracker, m: Measurement)
    requires Valid(cfg.mode, s)
    requires forall j :: 0 <= j < |s.arena| && s.arena[j].Some? ==>
               cfg.dist(m, Last(s.arena[j].value)) >= cfg.thresholds.range
    ensures |Step(cfg, s, m).arena| == |s.arena| + 1
    ensures Step(cfg, s, m).arena[|s.arena|].Some?
    ensures Step(cfg, s, m).arena[|s.arena|].value.hits == 1
  {
    StepCreates(cfg, s, m);
  }

  /** Live tracks carry pairwise distinct ids, one per occupied slot. */
  lemma LiveIdsDistinct(mode: Mode, s: Tracker)
    requires Valid(mode, s)
    ensures forall j, k :: 0 <= j < |s.arena| && 0 <= k < |s.arena| && j != k
              && s.arena[j].Some? && s.arena[k].Some?
              ==> s.arena[j].value.id != s.arena[k].value.id
  {
    forall j, k | 0 <= j < |s.arena| && 0 <= k < |s.arena| && j != k && s.arena[j].Some? && s.arena[k].Some?
      ensures s.arena[j].value.id != s.arena[k].value.id
    {
      assert TrackValid(mode, s.arena[j].value, s.pool);
      assert TrackValid(mode, s.arena[k].value, s.pool);
    }
  }

  /** An empty stream leaves an empty track table and an empty pool. */
  lemma RunEmpty(cfg: Config)
    ensures Run(cfg, []).arena == [] && Run(cfg, []).pool == []
  {
  }

  /** The firm set of a run only grows as the stream goes on. */
  lemma {:induction false} RunFirmIdsGrow(cfg: Config, ms: seq<Measurement>, n: nat)
    requires n <= |ms|
    ensures Run(cfg, ms[..n]).firmIds <= Run(cfg, ms).firmIds
    decreases |ms| - n
  {
    if n < |ms| {
      RunFirmIdsGrow(cfg, ms, n + 1);
      var prefix := ms[..n + 1];
      assert prefix[..|prefix| - 1] == ms[..n];
      var before := Run(cfg, ms[..n]);
      assert Run(cfg, prefix) == Step(cfg, before, prefix[|prefix| - 1]);
    } else {
      assert ms[..n] == ms;
    }
  }

  /** A lone track that is not firm and gates with the measurement takes the hit. */
  lemma LoneTrackHit(cfg: Config, s: Tracker, m: Measurement)
    requires Valid(cfg.mode, s)
    requires |s.arena| == 1 && s.arena[0].Some? && s.arena[0].value.state != Firm
    requires Accepts(cfg, s.arena[0].value, m)
    ensures Step(cfg, s, m).arena == [Some(HitUpdate(cfg.mode, s.arena[0].value, m))]
  {
    assert FirstMatch(cfg, s.arena, m, 0) == Some(0);
    StepMatched(cfg, s, m, 0);
  }

  /** Three identical measurements one time unit apart, in three-state mode with gates
      5 (Doppler), 50 (range) and 2 (time), build one track that passes through Poss1
      and Tentative1 and is firm with three hits. */
  lemma ThreeHitsMakeFirm(dist: Distance)
    requires ZeroOnSamePosition(dist)
    ensures var cfg := Config(Thresholds(5.0, 50.0, 2.0), ThreeState, dist);
            var m0 := Measurement(0.0, 0.0, 1000.0, DefaultDoppler, 0.0);
            var m1 := m0.(timestamp := 1.0);
            var m2 := m0.(timestamp := 2.0);
            var r := Run(cfg, [m0, m1, m2]);
            r.arena == [Some(Track(1, 0, [Entry(m0, Poss(1)), Entry(m1, Tentative(1)), Entry(m2, Firm)], 3, 0, Firm))]
  {
    var cfg := Config(Thresholds(5.0, 50.0, 2.0), ThreeState, dist);
    var m0 := Measurement(0.0, 0.0, 1000.0, DefaultDoppler, 0.0);
    var m1 := m0.(timestamp := 1.0);
    var m2 := m0.(timestamp := 2.0);
    var ms := [m0, m1, m2];
    assert ms[..2] == [m0, m1] && [m0, m1][..1] == [m0] && [m0][..0] == [];
    assert Run(cfg, []) == Empty;
    var t1 := Track(1, 0, [Entry(m0, Poss(1))], 1, 0, Poss(1));
    var s1 := Run(cfg, [m0]);
    assert s1 == Step(cfg, Empty, m0);
    StepCreates(cfg, Empty, m0);
    assert s1.arena == [Some(t1)];
    var s2 := Run(cfg, [m0, m1]);
    assert s2 == Step(cfg, s1, m1);
    assert SamePosition(m1, m0);
    LoneTrackHit(cfg, s1, m1);
    var t2 := HitUpdate(ThreeState, t1, m1);
    assert t2 == Track(1, 0, [Entry(m0, Poss(1)), Entry(m1, Tentative(1))], 2, 0, Tentative(1));
    assert s2.arena == [Some(t2)];
    assert Run(cfg, ms) == Step(cfg, s2, m2);
    assert SamePosition(m2, m1);
    LoneTrackHit(cfg, s2, m2);
    var t3 := HitUpdate(ThreeState, t2, m2);
    assert t3 == Track(1, 0, [Entry(m0, Poss(1)), Entry(m1, Tentative(1)), Entry(m2, Firm)], 3, 0, Firm);
  }
}
