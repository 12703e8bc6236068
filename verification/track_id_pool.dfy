/** The reusable track-ID pool: an ordered list of slots, each holding an id and a
    free/occupied status (test4_2.py:24-36; test1.py:24-36 is the same code). */
module TrackIdPool {
  import opened Wrappers

  datatype Status = Free | Occupied

  datatype Slot = Slot(id: nat, status: Status)

  type Pool = seq<Slot>

  /** What `get_next_track_id` hands back: the updated pool, the id and the slot index. */
  datatype Allocation = Allocation(pool: Pool, id: nat, index: nat)

  /** `release_track_id` indexes the list directly; an index past the end raises. */
  datatype PoolError = IndexOutOfRange(index: nat)

  /** Every pool the allocator builds numbers its slots 1, 2, 3, ... in order. */
  predicate WellFormed(pool: Pool) {
    forall i :: 0 <= i < |pool| ==> pool[i].id == i + 1
  }

  /** The index of the first free slot at or after `from`, scanning upwards. */
  function FirstFree(pool: Pool, from: nat): (r: Option<nat>)
    requires from <= |pool|
    decreases |pool| - from
    ensures r.Some? ==> from <= r.value < |pool| && pool[r.value].status == Free
    ensures r.Some? ==> forall j :: from <= j < r.value ==> pool[j].status == Occupied
    ensures r.None? ==> forall j :: from <= j < |pool| ==> pool[j].status == Occupied
  {
    if from == |pool| then None
    else if pool[from].status == Free then Some(from)
    else
      var rest := FirstFree(pool, from + 1);
      assert pool[from].status == Occupied;
      rest
  }

  /** `get_next_track_id`: reuse the lowest free slot, otherwise append a slot whose
      id is one more than the old length. */
  function Allocate(pool: Pool): (a: Allocation)
    ensures a.index <= |pool| && a.index < |a.pool|
    ensures a.pool[a.index] == Slot(a.id, Occupied)
    ensures forall j :: 0 <= j < a.index ==> pool[j].status == Occupied
    ensures a.index < |pool| ==> pool[a.index] == Slot(a.id, Free) && |a.pool| == |pool|
    ensures a.index == |pool| ==> a.id == |pool| + 1 && |a.pool| == |pool| + 1
    ensures forall j :: 0 <= j < |pool| && j != a.index ==> a.pool[j] == pool[j]
    ensures WellFormed(pool) ==> WellFormed(a.pool)
  {
    match FirstFree(pool, 0)
    case Some(i) => Allocation(pool[i := Slot(pool[i].id, Occupied)], pool[i].id, i)
    case None => Allocation(pool + [Slot(|pool| + 1, Occupied)], |pool| + 1, |pool|)
  }

  /** `release_track_id`: mark the slot at `index` free; nothing else moves. */
  function Release(pool: Pool, index: nat): (r: Result<Pool, PoolError>)
    ensures r.Success? <==> index < |pool|
    ensures r.Failure? ==> r.error == IndexOutOfRange(index)
    ensures r.Success? ==> |r.value| == |pool| && r.value[index] == Slot(pool[index].id, Free)
    ensures r.Success? ==> forall j :: 0 <= j < |pool| && j != index ==> r.value[j] == pool[j]
    ensures r.Success? && WellFormed(pool) ==> WellFormed(r.value)
  {
    if index < |pool| then Success(pool[index := Slot(pool[index].id, Free)])
    else Failure(IndexOutOfRange(index))
  }

  /** Ids of a well-formed pool, and so of its occupied slots, are pairwise distinct. */
  lemma OccupiedIdsDistinct(pool: Pool)
    requires WellFormed(pool)
    ensures forall i, j :: 0 <= i < |pool| && 0 <= j < |pool| && i != j
              && pool[i].status == Occupied && pool[j].status == Occupied
              ==> pool[i].id != pool[j].id
  {
  }

  /** Allocation followed by release of the allocated index gives back the pool it
      started from, plus a free slot when allocation had to grow the pool. */
  lemma AllocateThenRelease(pool: Pool)
    ensures var a := Allocate(pool);
            Release(a.pool, a.index)
            == Success(if a.index < |pool| then pool else pool + [Slot(|pool| + 1, Free)])
  {
    var a := Allocate(pool);
    var r := Release(a.pool, a.index).value;
    if a.index < |pool| {
      assert forall j :: 0 <= j < |pool| ==> r[j] == pool[j];
      assert r == pool;
    } else {
      var grown := pool + [Slot(|pool| + 1, Free)];
      assert |r| == |grown|;
      assert forall j :: 0 <= j < |pool| ==> r[j] == grown[j];
      assert r[|pool|] == grown[|pool|];
      assert r == grown;
    }
  }

  /** A released slot below which every slot is occupied is the next one handed out,
      with its old id, and the pool returns to the state before the release. */
  lemma ReleaseThenAllocateReuses(pool: Pool, index: nat)
    requires index < |pool| && pool[index].status == Occupied
    requires forall j :: 0 <= j < index ==> pool[j].status == Occupied
    ensures var a := Allocate(Release(pool, index).value);
            a.index == index && a.id == pool[index].id && a.pool == pool
  {
    var released := Release(pool, index).value;
    var a := Allocate(released);
    assert released[index].status == Free;
    assert a.index == index;
    assert forall j :: 0 <= j < |pool| ==> a.pool[j] == pool[j];
  }

  /** Growth happens only when every slot is occupied. */
  lemma AllocateGrowsOnlyWhenFull(pool: Pool)
    ensures |Allocate(pool).pool| == |pool| + 1 <==> forall j :: 0 <= j < |pool| ==> pool[j].status == Occupied
  {
    var a := Allocate(pool);
    if a.index < |pool| {
      assert pool[a.index].status == Free;
    }
  }
}
