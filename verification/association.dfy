/** The association and lifecycle step of track initiation, folded over the
    measurement stream (test4_2.py:39-144).

    The per-track dictionaries of the source (hit counts, miss counts, state map,
    tentative and firm ids) are collapsed into one Track record. Tracks live in an
    arena that only grows, as the source's `tracks` list does; an evicted track leaves
    a tombstone (None) at its position, as `tracks[track_id] = None` does. Each track
    remembers the pool slot it was given, and eviction releases that slot.

    The miss step is the one a working M-of-N tracker needs: every live track that did
    not take the measurement gets one more miss, and a track is evicted once its misses
    reach the threshold of its current state (`get_miss_threshold`, test4_2.py:57-63).
    test4_2.py:134-136 instead increments only the track just created, and test1.py:101
    increments only counters that are already positive; test1.py:108-115 also uses a
    flat table (Pos 1, Tentative 2, Firm 3) in every mode. */
module Association {
  import opened Wrappers
  import opened Gating
  import opened TrackIdPool
  import opened Ladder

  /** One history entry: a measurement and the state the track had after taking it. */
  datatype Entry = Entry(measurement: Measurement, state: Label)

  datatype Track = Track(
    id: nat,
    slot: nat,
    history: seq<Entry>,
    hits: nat,
    misses: nat,
    state: Label)

  /** The track table, the id pool and the arena positions of tracks that went firm. */
  datatype Tracker = Tracker(arena: seq<Option<Track>>, pool: Pool, firmIds: set<nat>)

  /** The gate widths, the initiation mode and the distance between measurements. */
  datatype Config = Config(thresholds: Thresholds, mode: Mode, dist: Distance)

  /** The result of the association phase: the tracker and the arena position of the
      track that took the measurement (an existing track, or the one just created). */
  datatype Assignment = Assignment(tracker: Tracker, matched: nat)

  const Empty: Tracker := Tracker([], [], {})

  function Last(t: Track): Measurement
    requires |t.history| > 0
  {
    t.history[|t.history| - 1].measurement
  }

  /** The track's last measurement gates with `m`. */
  predicate Accepts(cfg: Config, t: Track, m: Measurement)
    requires |t.history| > 0
  {
    Gate(cfg.thresholds, cfg.dist, m, Last(t))
  }

  ghost predicate HistoriesNonEmpty(arena: seq<Option<Track>>) {
    forall k :: 0 <= k < |arena| && arena[k].Some? ==> |arena[k].value.history| > 0
  }

  /** First-fit: the first live track at or after `from`, in creation order, whose last
      measurement gates with `m`; tombstones are skipped. */
  function FirstMatch(cfg: Config, arena: seq<Option<Track>>, m: Measurement, from: nat): (r: Option<nat>)
    requires from <= |arena| && HistoriesNonEmpty(arena)
    decreases |arena| - from
    ensures r.Some? ==> from <= r.value && 0 <= r.value < |arena| && arena[r.value].Some? && Accepts(cfg, arena[r.value].value, m)
    ensures forall j :: from <= j < |arena| && arena[j].Some? && (r.None? || j < r.value) ==> !Accepts(cfg, arena[j].value, m)
  {
    if from == |arena| then None
    else if arena[from].Some? && Accepts(cfg, arena[from].value, m) then Some(from)
    else FirstMatch(cfg, arena, m, from + 1)
  }

  /** A track created for an unmatched measurement: one hit, no miss, first table state. */
  function NewTrack(mode: Mode, id: nat, slot: nat, m: Measurement): (t: Track)
    ensures t.hits == 1 && t.misses == 0 && t.state == Poss(1)
    ensures t.history == [Entry(m, t.state)]
  {
    var first := Progression(mode)[0];
    Track(id, slot, [Entry(m, first)], 1, 0, first)
  }

  /** The hit update of a track that is not firm yet. */
  function HitUpdate(mode: Mode, t: Track, m: Measurement): (r: Track)
    ensures r.id == t.id && r.slot == t.slot
    ensures r.hits == t.hits + 1 && r.misses == 0
    ensures r.history == t.history + [Entry(m, r.state)]
    ensures r.hits < |Progression(mode)| && r.hits < FirmThreshold(mode) ==> r.state == Progression(mode)[r.hits - 1]
    ensures r.hits >= FirmThreshold(mode) ==> r.state == Firm
    ensures t.hits >= 1 && t.state == ExpectedState(mode, t.hits) ==> r.state == ExpectedState(mode, r.hits)
  {
    var hits := t.hits + 1;
    var state := Promote(mode, t.state, hits);
    Track(t.id, t.slot, t.history + [Entry(m, state)], hits, 0, state)
  }

  /** A firm track that gates only records the measurement; its counters stay. */
  function FirmHit(t: Track, m: Measurement): (r: Track)
    ensures r.hits == t.hits && r.misses == t.misses && r.state == t.state
    ensures r.id == t.id && r.slot == t.slot
    ensures r.history == t.history + [Entry(m, r.state)]
  {
    t.(history := t.history + [Entry(m, t.state)])
  }

  /** The association phase of one measurement (test4_2.py:70-121). */
  function Associate(cfg: Config, s: Tracker, m: Measurement): (r: Assignment)
    requires HistoriesNonEmpty(s.arena)
    ensures FirstMatch(cfg, s.arena, m, 0).Some? ==>
              r.matched == FirstMatch(cfg, s.arena, m, 0).value && |r.tracker.arena| == |s.arena|
    ensures FirstMatch(cfg, s.arena, m, 0).None? ==>
              r.matched == |s.arena| && |r.tracker.arena| == |s.arena| + 1
    ensures forall j :: 0 <= j < |s.arena| && j != r.matched ==> r.tracker.arena[j] == s.arena[j]
  {
    match FirstMatch(cfg, s.arena, m, 0)
    case Some(k) =>
      var t := s.arena[k].value;
      if k in s.firmIds then
        Assignment(s.(arena := s.arena[k := Some(FirmHit(t, m))]), k)
      else
        var updated := HitUpdate(cfg.mode, t, m);
        var firm := if updated.hits >= FirmThreshold(cfg.mode) then s.firmIds + {k} else s.firmIds;
        Assignment(Tracker(s.arena[k := Some(updated)], s.pool, firm), k)
    case None =>
      var a := Allocate(s.pool);
      Assignment(Tracker(s.arena + [Some(NewTrack(cfg.mode, a.id, a.index, m))], a.pool, s.firmIds), |s.arena|)
  }

  /** What the miss pass does to one live track: an unmatched track gets one more miss,
      and a track whose misses reach its state's threshold is evicted (None). */
  function MissOutcome(mode: Mode, t: Track, matched: bool): (r: Option<Track>)
    ensures r.Some? ==> r.value.misses < MissThreshold(mode, t.state)
    ensures r.Some? ==> r.value == (if matched then t else t.(misses := t.misses + 1))
    ensures r.None? <==> (if matched then t.misses else t.misses + 1) >= MissThreshold(mode, t.state)
  {
    var counted := if matched then t else t.(misses := t.misses + 1);
    if counted.misses >= MissThreshold(mode, counted.state) then None else Some(counted)
  }

  function Swept(mode: Mode, entry: Option<Track>, matched: bool): Option<Track> {
    match entry
    case None => None
    case Some(t) => MissOutcome(mode, t, matched)
  }

  /** The miss pass over arena positions `k` onwards (test4_2.py:123-142), releasing
      the pool slot of each evicted track as it goes. */
  function Sweep(mode: Mode, arena: seq<Option<Track>>, pool: Pool, matched: nat, k: nat)
    : (r: (seq<Option<Track>>, Pool))
    requires k <= |arena|
    requires forall j :: k <= j < |arena| && arena[j].Some? ==> arena[j].value.slot < |pool|
    decreases |arena| - k
    ensures |r.0| == |arena| && |r.1| == |pool|
    ensures forall j :: 0 <= j < k ==> r.0[j] == arena[j]
    ensures forall j :: k <= j < |arena| ==> r.0[j] == Swept(mode, arena[j], j == matched)
    ensures forall i :: 0 <= i < |pool| ==> r.1[i].id == pool[i].id
    ensures forall i :: 0 <= i < |pool| && pool[i].status == Free ==> r.1[i].status == Free
    ensures forall j :: k <= j < |arena| && arena[j].Some? && r.0[j].None? ==> r.1[arena[j].value.slot].status == Free
    ensures forall i :: 0 <= i < |pool| && r.1[i] != pool[i] ==>
              exists j :: k <= j < |arena| && arena[j].Some? && arena[j].value.slot == i && r.0[j].None?
  {
    if k == |arena| then (arena, pool)
    else
      match arena[k]
      case None => Sweep(mode, arena, pool, matched, k + 1)
      case Some(t) =>
        match MissOutcome(mode, t, k == matched)
        case None => Sweep(mode, arena[k := None], Release(pool, t.slot).value, matched, k + 1)
        case Some(kept) => Sweep(mode, arena[k := Some(kept)], pool, matched, k + 1)
  }

  /** Every live track is consistent with its counters and holds its own occupied slot. */
  predicate TrackValid(mode: Mode, t: Track, pool: Pool) {
    && |t.history| > 0
    && t.hits >= 1
    && t.state == ExpectedState(mode, t.hits)
    && t.history[|t.history| - 1].state == t.state
    && t.misses < MissThreshold(mode, t.state)
    && t.slot < |pool|
    && pool[t.slot] == Slot(t.id, Occupied)
  }

  ghost predicate SlotsDistinct(arena: seq<Option<Track>>) {
    forall j, k :: 0 <= j < |arena| && arena[j].Some? && 0 <= k < |arena| && arena[k].Some? && j != k ==> arena[j].value.slot != arena[k].value.slot
  }

  /** Every occupied slot belongs to a live track: no slot leaks. */
  ghost predicate SlotsAccounted(arena: seq<Option<Track>>, pool: Pool) {
    forall i :: 0 <= i < |pool| && pool[i].status == Occupied ==>
      exists k :: 0 <= k < |arena| && arena[k].Some? && arena[k].value.slot == i
  }

  /** The invariant the fold keeps. */
  ghost predicate Valid(mode: Mode, s: Tracker) {
    && WellFormed(s.pool)
    && (forall k :: 0 <= k < |s.arena| && s.arena[k].Some? ==> TrackValid(mode, s.arena[k].value, s.pool))
    && SlotsDistinct(s.arena)
    && SlotsAccounted(s.arena, s.pool)
    && (forall k :: k in s.firmIds ==> k < |s.arena|)
    && (forall k :: 0 <= k < |s.arena| && s.arena[k].Some? ==> (k in s.firmIds <==> s.arena[k].value.state == Firm))
  }

  /** Replacing a live track by one that keeps its id and slot keeps the invariant. */
  lemma ReplaceValid(mode: Mode, s: Tracker, k: nat, u: Track, firm: set<nat>)
    requires Valid(mode, s)
    requires k < |s.arena| && s.arena[k].Some?
    requires u.id == s.arena[k].value.id && u.slot == s.arena[k].value.slot
    requires TrackValid(mode, u, s.pool)
    requires firm == s.firmIds || firm == s.firmIds + {k}
    requires k in firm <==> u.state == Firm
    ensures Valid(mode, Tracker(s.arena[k := Some(u)], s.pool, firm))
  {
    var arena := s.arena[k := Some(u)];
    assert forall j :: 0 <= j < |arena| && arena[j].Some? ==> TrackValid(mode, arena[j].value, s.pool) by {
      forall j | 0 <= j < |arena| && arena[j].Some?
        ensures TrackValid(mode, arena[j].value, s.pool)
      {
        if j != k {
          assert arena[j] == s.arena[j];
        }
      }
    }
    assert SlotsDistinct(arena) by {
      forall i, j | 0 <= i < |arena| && arena[i].Some? && 0 <= j < |arena| && arena[j].Some? && i != j
        ensures arena[i].value.slot != arena[j].value.slot
      {
        assert arena[i].value.slot == s.arena[i].value.slot;
        assert arena[j].value.slot == s.arena[j].value.slot;
      }
    }
    assert forall j :: 0 <= j < |arena| && arena[j].Some? ==> (j in firm <==> arena[j].value.state == Firm) by {
      forall j | 0 <= j < |arena| && arena[j].Some?
        ensures j in firm <==> arena[j].value.state == Firm
      {
        if j != k {
          assert arena[j] == s.arena[j];
        }
      }
    }
    assert SlotsAccounted(arena, s.pool) by {
      forall i | 0 <= i < |s.pool| && s.pool[i].status == Occupied
        ensures exists j :: 0 <= j < |arena| && arena[j].Some? && arena[j].value.slot == i
      {
        var j :| 0 <= j < |s.arena| && s.arena[j].Some? && s.arena[j].value.slot == i;
        assert arena[j].Some? && arena[j].value.slot == i;
      }
    }
  }

  /** Appending a track that holds a slot nobody else holds keeps the invariant. */
  lemma AppendValid(mode: Mode, s: Tracker, a: Allocation, u: Track)
    requires Valid(mode, s)
    requires a == Allocate(s.pool)
    requires u.id == a.id && u.slot == a.index
    requires TrackValid(mode, u, a.pool) && u.state != Firm
    ensures Valid(mode, Tracker(s.arena + [Some(u)], a.pool, s.firmIds))
  {
    var arena := s.arena + [Some(u)];
    var n := |s.arena|;
    forall j | 0 <= j < |s.arena| && s.arena[j].Some?
      ensures s.arena[j].value.slot != a.index
      ensures a.pool[s.arena[j].value.slot] == s.pool[s.arena[j].value.slot]
    {
      if a.index < |s.pool| {
        assert s.pool[a.index].status == Free;
      }
    }
    assert forall j :: 0 <= j < |arena| && arena[j].Some? ==> TrackValid(mode, arena[j].value, a.pool) by {
      forall j | 0 <= j < |arena| && arena[j].Some?
        ensures TrackValid(mode, arena[j].value, a.pool)
      {
        if j < n {
          assert arena[j] == s.arena[j];
        }
      }
    }
    assert SlotsAccounted(arena, a.pool) by {
      forall i | 0 <= i < |a.pool| && a.pool[i].status == Occupied
        ensures exists j :: 0 <= j < |arena| && arena[j].Some? && arena[j].value.slot == i
      {
        if i == a.index {
          assert arena[n].Some? && arena[n].value.slot == i;
        } else {
          var j :| 0 <= j < |s.arena| && s.arena[j].Some? && s.arena[j].value.slot == i;
          assert arena[j].Some? && arena[j].value.slot == i;
        }
      }
    }
  }

  /** The association phase keeps the invariant and names a live matched track. */
  lemma AssociateValid(cfg: Config, s: Tracker, m: Measurement)
    requires Valid(cfg.mode, s)
    ensures var a := Associate(cfg, s, m);
            && Valid(cfg.mode, a.tracker)
            && 0 <= a.matched < |a.tracker.arena| && a.tracker.arena[a.matched].Some?
            && s.firmIds <= a.tracker.firmIds
  {
    match FirstMatch(cfg, s.arena, m, 0)
    case Some(k) =>
      var t := s.arena[k].value;
      assert TrackValid(cfg.mode, t, s.pool);
      if k in s.firmIds {
        ReplaceValid(cfg.mode, s, k, FirmHit(t, m), s.firmIds);
      } else {
        var updated := HitUpdate(cfg.mode, t, m);
        ExpectedFirmIff(cfg.mode, updated.hits);
        var firm := if updated.hits >= FirmThreshold(cfg.mode) then s.firmIds + {k} else s.firmIds;
        ReplaceValid(cfg.mode, s, k, updated, firm);
      }
    case None =>
      var al := Allocate(s.pool);
      AppendValid(cfg.mode, s, al, NewTrack(cfg.mode, al.id, al.index, m));
  }

  /** The miss pass leaves every surviving track valid. */
  lemma SweepTracksValid(mode: Mode, s: Tracker, matched: nat)
    requires Valid(mode, s)
    ensures var r := Sweep(mode, s.arena, s.pool, matched, 0);
            forall j :: 0 <= j < |r.0| && r.0[j].Some? ==> TrackValid(mode, r.0[j].value, r.1)
  {
    var r := Sweep(mode, s.arena, s.pool, matched, 0);
    var arena, pool := r.0, r.1;
    forall j | 0 <= j < |arena| && arena[j].Some?
      ensures TrackValid(mode, arena[j].value, pool)
    {
      var t := s.arena[j].value;
      assert TrackValid(mode, t, s.pool);
    }
  }

  /** The miss pass leaks no slot: every slot still occupied belongs to a survivor. */
  lemma SweepAccounted(mode: Mode, s: Tracker, matched: nat)
    requires Valid(mode, s)
    ensures var r := Sweep(mode, s.arena, s.pool, matched, 0);
            SlotsAccounted(r.0, r.1)
  {
    var r := Sweep(mode, s.arena, s.pool, matched, 0);
    var arena, pool := r.0, r.1;
    forall i | 0 <= i < |pool| && pool[i].status == Occupied
      ensures exists k :: 0 <= k < |arena| && arena[k].Some? && arena[k].value.slot == i
    {
      var k :| 0 <= k < |s.arena| && s.arena[k].Some? && s.arena[k].value.slot == i;
      assert arena[k].Some?;
    }
  }

  /** The miss pass keeps the invariant. */
  lemma SweepValid(mode: Mode, s: Tracker, matched: nat)
    requires Valid(mode, s)
    ensures var r := Sweep(mode, s.arena, s.pool, matched, 0);
            Valid(mode, Tracker(r.0, r.1, s.firmIds))
  {
    SweepTracksValid(mode, s, matched);
    SweepAccounted(mode, s, matched);
  }

  /** One step of track initiation: associate the measurement, then run the miss pass. */
  function Step(cfg: Config, s: Tracker, m: Measurement): (r: Tracker)
    requires Valid(cfg.mode, s)
    ensures Valid(cfg.mode, r)
    ensures s.firmIds <= r.firmIds
  {
    var a := Associate(cfg, s, m);
    AssociateValid(cfg, s, m);
    var swept := Sweep(cfg.mode, a.tracker.arena, a.tracker.pool, a.matched, 0);
    SweepValid(cfg.mode, a.tracker, a.matched);
    Tracker(swept.0, swept.1, a.tracker.firmIds)
  }

  /** `initialize_tracks`: the step folded over the stream from the empty tracker. */
  function Run(cfg: Config, ms: seq<Measurement>): (r: Tracker)
    decreases |ms|
    ensures Valid(cfg.mode, r)
    ensures |r.arena| <= |ms|
  {
    if |ms| == 0 then Empty
    else Step(cfg, Run(cfg, ms[..|ms| - 1]), ms[|ms| - 1])
  }
}
