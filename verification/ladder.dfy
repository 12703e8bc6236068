/** The initiation mode and its M-of-N confirmation ladder: the per-mode progression
    tables, the firm threshold, the promotion rule applied on a hit and the
    state-dependent miss threshold (test4_2.py:48-63, 89-99 and 158-167). */
module Ladder {
  import opened Wrappers

  /** The three initiation modes offered by the mode selector. */
  datatype Mode = ThreeState | FiveState | SevenState

  /** `select_initiation_mode` raises for any other text. */
  datatype ModeError = InvalidMode(name: string)

  /** The number of hits that makes a track firm; the source passes this number
      around in place of the mode itself. */
  function FirmThreshold(mode: Mode): (n: nat)
    ensures 3 <= n <= 7 && n % 2 == 1
    ensures ModeName(mode) == [(('0' as int) + n) as char] + "-state"
  {
    match mode
    case ThreeState => 3
    case FiveState => 5
    case SevenState => 7
  }

  /** The text the mode selector shows for each mode. */
  function ModeName(mode: Mode): string {
    match mode
    case ThreeState => "3-state"
    case FiveState => "5-state"
    case SevenState => "7-state"
  }

  /** `select_initiation_mode`: exactly the three mode names are accepted. */
  function SelectInitiationMode(name: string): (r: Result<Mode, ModeError>)
    ensures r.Success? <==> name == "3-state" || name == "5-state" || name == "7-state"
    ensures r.Success? ==> ModeName(r.value) == name
    ensures r.Success? ==> FirmThreshold(r.value) == (name[0] as int) - ('0' as int)
    ensures r.Failure? ==> r.error == InvalidMode(name)
  {
    if name == "3-state" then Success(ThreeState)
    else if name == "5-state" then Success(FiveState)
    else if name == "7-state" then Success(SevenState)
    else Failure(InvalidMode(name))
  }

  /** Selecting a mode by its own name gives that mode back, so no two modes share a name. */
  lemma SelectInvertsModeName(mode: Mode)
    ensures SelectInitiationMode(ModeName(mode)) == Success(mode)
  {
  }

  /** Track state labels. The numbered provisional labels are written 'Poss1',
      'Tentative2', ... in the source. */
  datatype Label = Poss(rank: nat) | Tentative(rank: nat) | Firm

  /** Position of a label's category on the ladder: Poss, then Tentative, then Firm. */
  function Category(state: Label): nat {
    match state
    case Poss(_) => 0
    case Tentative(_) => 1
    case Firm => 2
  }

  /** The progression table of each mode. The seven-state table holds six entries,
      one fewer than its firm threshold. */
  function Progression(mode: Mode): (p: seq<Label>)
    ensures 3 <= |p| <= FirmThreshold(mode)
    ensures p[0] == Poss(1) && p[|p| - 1] == Firm
    ensures forall i :: 0 <= i < |p| - 1 ==> !p[i].Firm?
    ensures forall i :: 0 <= i < |p| - 1 ==> Category(p[i]) <= Category(p[i + 1])
  {
    match mode
    case ThreeState => [Poss(1), Tentative(1), Firm]
    case FiveState => [Poss(1), Poss(2), Tentative(1), Tentative(2), Firm]
    case SevenState => [Poss(1), Poss(2), Tentative(1), Tentative(2), Tentative(3), Firm]
  }

  /** Categories never go down along a progression table. */
  lemma {:induction false} ProgressionOrdered(mode: Mode, i: nat, j: nat)
    requires i <= j < |Progression(mode)|
    ensures Category(Progression(mode)[i]) <= Category(Progression(mode)[j])
    decreases j - i
  {
    if i < j {
      ProgressionOrdered(mode, i + 1, j);
    }
  }

  function Min(a: nat, b: nat): nat {
    if a < b then a else b
  }

  /** The state a track must be in after `hits` accepted hits, stated independently
      of the step-by-step promotion: firm from the firm threshold on, otherwise the
      table entry for the hit count, where the last provisional entry is held once
      the count reaches the end of the table. */
  function ExpectedState(mode: Mode, hits: nat): Label
    requires hits >= 1
  {
    var p := Progression(mode);
    if hits >= FirmThreshold(mode) then Firm else p[Min(hits, |p| - 1) - 1]
  }

  /** The promotion rule applied on a hit, with `hits` the incremented count: take the
      table entry while the count is below the table's length, then force Firm once the
      count reaches the firm threshold; otherwise the current state stays. */
  function Promote(mode: Mode, current: Label, hits: nat): (r: Label)
    requires hits >= 1
    ensures r == Firm <==> hits >= FirmThreshold(mode) || (current == Firm && |Progression(mode)| <= hits)
    ensures hits < |Progression(mode)| ==> r == Progression(mode)[hits - 1]
    ensures |Progression(mode)| <= hits < FirmThreshold(mode) ==> r == current
  {
    var p := Progression(mode);
    var laddered := if hits < |p| then p[hits - 1] else current;
    if hits >= FirmThreshold(mode) then Firm else laddered
  }

  /** Promotion keeps a track's state equal to the state its hit count calls for. */
  lemma PromoteFollowsLadder(mode: Mode, current: Label, hits: nat)
    requires hits >= 1 && current == ExpectedState(mode, hits)
    ensures Promote(mode, current, hits + 1) == ExpectedState(mode, hits + 1)
  {
  }

  /** A track is firm exactly when its hit count has reached the firm threshold. */
  lemma ExpectedFirmIff(mode: Mode, hits: nat)
    requires hits >= 1
    ensures ExpectedState(mode, hits) == Firm <==> hits >= FirmThreshold(mode)
  {
    var p := Progression(mode);
    if hits < FirmThreshold(mode) {
      assert !p[Min(hits, |p| - 1) - 1].Firm?;
    }
  }

  /** A first hit puts a track in the first table entry. */
  lemma ExpectedFirstState(mode: Mode)
    ensures ExpectedState(mode, 1) == Progression(mode)[0] == Poss(1)
  {
  }

  /** More hits never move a track back down the ladder. */
  lemma ExpectedStateMonotone(mode: Mode, h1: nat, h2: nat)
    requires 1 <= h1 <= h2
    ensures Category(ExpectedState(mode, h1)) <= Category(ExpectedState(mode, h2))
  {
    var p := Progression(mode);
    if h2 < FirmThreshold(mode) {
      ProgressionOrdered(mode, Min(h1, |p| - 1) - 1, Min(h2, |p| - 1) - 1);
    }
  }

  /** The state each hit count reaches in each mode. In seven-state mode the sixth hit
      keeps 'Tentative3', since the table holds only six entries. */
  lemma LadderWalks()
    ensures [ExpectedState(ThreeState, 1), ExpectedState(ThreeState, 2), ExpectedState(ThreeState, 3)]
            == [Poss(1), Tentative(1), Firm]
    ensures [ExpectedState(FiveState, 1), ExpectedState(FiveState, 2), ExpectedState(FiveState, 3),
             ExpectedState(FiveState, 4), ExpectedState(FiveState, 5)]
            == [Poss(1), Poss(2), Tentative(1), Tentative(2), Firm]
    ensures [ExpectedState(SevenState, 1), ExpectedState(SevenState, 2), ExpectedState(SevenState, 3),
             ExpectedState(SevenState, 4), ExpectedState(SevenState, 5), ExpectedState(SevenState, 6),
             ExpectedState(SevenState, 7)]
            == [Poss(1), Poss(2), Tentative(1), Tentative(2), Tentative(3), Tentative(3), Firm]
  {
  }

  /** `get_miss_threshold`: how many misses evict a track in a given state. */
  function MissThreshold(mode: Mode, state: Label): (n: nat)
    ensures n >= 1
    ensures state.Poss? ==> n == 1
    ensures state.Tentative? ==> n == (if mode == ThreeState then 2 else 3)
    ensures state.Firm? ==> n == (if mode == ThreeState then 3 else 5)
  {
    match state
    case Poss(_) => 1
    case Tentative(_) => if FirmThreshold(mode) == 3 then 2 else 3
    case Firm => if FirmThreshold(mode) == 3 then 3 else 5
  }

  /** A later category never tolerates fewer misses. */
  lemma MissThresholdFollowsCategory(mode: Mode, a: Label, b: Label)
    requires Category(a) <= Category(b)
    ensures MissThreshold(mode, a) <= MissThreshold(mode, b)
  {
  }

  /** So the eviction threshold never shrinks as a track collects hits. */
  lemma MissThresholdGrowsWithHits(mode: Mode, h1: nat, h2: nat)
    requires 1 <= h1 <= h2
    ensures MissThreshold(mode, ExpectedState(mode, h1)) <= MissThreshold(mode, ExpectedState(mode, h2))
  {
    ExpectedStateMonotone(mode, h1, h2);
    MissThresholdFollowsCategory(mode, ExpectedState(mode, h1), ExpectedState(mode, h2));
  }
}
