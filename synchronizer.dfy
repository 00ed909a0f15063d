/** The synchronizer: it indexes the slots of `[from, to)` in checkpoint-sized
    chunks, records the last slot of every finished chunk, and splits each
    chunk among worker sub-ranges processed by the earlier slot processor.
    Workers run one after the other here; each stops at its first failing
    slot. */
module Synchronizer {
  import opened Common
  import opened Decimal
  import SlotProcessor

  type Clients = SlotProcessor.Clients

  /** The outcome of processing each slot. */
  type SlotOutcomes = U32 -> Result<(), SlotProcessor.SlotProcessorError>

  /** `slots` holds the slot processor's outcome for every slot, given its
      clients. */
  ghost predicate IsOutcomes(c: Clients, slots: SlotOutcomes) {
    forall slot: U32 {:trigger SlotProcessor.ProcessSlotSpec(c, slot)} ::
      slots(slot) == SlotProcessor.ProcessSlotSpec(c, slot).result
  }

  datatype Config = Config(numThreads: U32, slotsCheckpoint: U32)

  const DEFAULT_SLOTS_CHECKPOINT: U32 := 1000

  /** `try_new`: a given configuration is kept; otherwise the thread count is
      the machine's parallelism (cast to `u32`, which keeps its low 32 bits)
      and the checkpoint is 1000. `parallelism` stands for
      `available_parallelism()`, a positive count or the text of its error. */
  function TryNew(config: Option<Config>, parallelism: Result<nat, string>): (r: Result<Config, AnyError>)
    ensures config.Some? ==> r == Ok(config.value)
    ensures config.None? && parallelism.Ok? ==>
              r.Ok? && r.value.slotsCheckpoint == DEFAULT_SLOTS_CHECKPOINT
              && r.value.numThreads == parallelism.value % 0x1_0000_0000
    ensures config.None? && parallelism.Err? ==>
              r == Err(AnyError("Failed to fetch default synchronizer thread amount: " + parallelism.error))
  {
    match config
    case Some(cfg) => Ok(cfg)
    case None =>
      match parallelism
      case Err(e) => Err(AnyError("Failed to fetch default synchronizer thread amount: " + e))
      case Ok(p) => Ok(Config(p % 0x1_0000_0000, DEFAULT_SLOTS_CHECKPOINT))
  }

  /** The slots `initialSlot..finalSlot` (the final slot excluded). */
  datatype SlotRange = SlotRange(initialSlot: U32, finalSlot: U32)

  /** `SynchronizerThreadError`: a worker's failure names its sub-range, the
      failed slot and the slot error. */
  datatype ThreadError =
    FailedSlotsChunkProcessing(initialSlot: U32, finalSlot: U32, failedSlot: U32,
                               error: SlotProcessor.SlotProcessorError)

  /** `SynchronizerError`: a chunk failure lists its workers' errors; client
      errors and other errors arrive through `?`. */
  datatype SynchronizerError =
    | FailedSlotsProcessing(initialSlot: U32, finalSlot: U32, chunkErrors: seq<ThreadError>)
    | ClientError(client: Common.ClientError)
    | Other(other: AnyError)

  /** `ranges` are non-empty, each starts where the previous ends, and together
      they run from `lo` to `hi`. */
  ghost predicate Tiles(ranges: seq<SlotRange>, lo: int, hi: int) {
    |ranges| > 0
    && ranges[0].initialSlot == lo
    && ranges[|ranges| - 1].finalSlot == hi
    && (forall i | 0 <= i < |ranges| :: ranges[i].initialSlot < ranges[i].finalSlot)
    && (forall i | 0 <= i < |ranges| - 1 :: ranges[i].finalSlot == ranges[i + 1].initialSlot)
  }

  /** Tiling ranges are ascending and pairwise disjoint. */
  lemma {:induction false} TilesOrdered(ranges: seq<SlotRange>, lo: int, hi: int, i: nat, j: nat)
    requires Tiles(ranges, lo, hi)
    requires i < j < |ranges|
    ensures ranges[i].finalSlot <= ranges[j].initialSlot
    decreases j - i
  {
    if i + 1 < j {
      TilesOrdered(ranges, lo, hi, i + 1, j);
    }
  }

  lemma TilesTail(ranges: seq<SlotRange>, lo: int, hi: int)
    requires Tiles(ranges, lo, hi) && |ranges| > 1
    ensures Tiles(ranges[1..], ranges[0].finalSlot, hi)
  {
    var rest := ranges[1..];
    assert forall i | 0 <= i < |rest| :: rest[i] == ranges[i + 1];
  }

  lemma TilesCons(r: SlotRange, rest: seq<SlotRange>, lo: int, hi: int)
    requires r.initialSlot == lo < r.finalSlot
    requires Tiles(rest, r.finalSlot, hi)
    ensures Tiles([r] + rest, lo, hi)
  {
    var ranges := [r] + rest;
    assert forall i | 1 <= i < |ranges| :: ranges[i] == rest[i - 1];
  }

  /** A slot inside one of the tiling ranges lies in `[lo, hi)`. */
  lemma TilesCoverInside(ranges: seq<SlotRange>, lo: int, hi: int, s: int, i: nat)
    requires Tiles(ranges, lo, hi)
    requires i < |ranges| && ranges[i].initialSlot <= s < ranges[i].finalSlot
    ensures lo <= s < hi
  {
    if i > 0 {
      TilesOrdered(ranges, lo, hi, 0, i);
    }
    if i < |ranges| - 1 {
      TilesOrdered(ranges, lo, hi, i, |ranges| - 1);
    }
  }

  /** A slot of `[lo, hi)` lies in one of the tiling ranges. */
  lemma {:induction false} TilesCoverSome(ranges: seq<SlotRange>, lo: int, hi: int, s: int) returns (i: nat)
    requires Tiles(ranges, lo, hi) && lo <= s < hi
    ensures i < |ranges| && ranges[i].initialSlot <= s < ranges[i].finalSlot
  {
    if s < ranges[0].finalSlot {
      return 0;
    }
    if |ranges| == 1 {
      assert false;
    } else {
      TilesTail(ranges, lo, hi);
      var k := TilesCoverSome(ranges[1..], ranges[0].finalSlot, hi, s);
      i := k + 1;
    }
  }

  /** Tiling ranges cover exactly the slots of `[lo, hi)`. */
  lemma TilesCover(ranges: seq<SlotRange>, lo: int, hi: int, s: int)
    requires Tiles(ranges, lo, hi)
    ensures lo <= s < hi <==>
            exists i | 0 <= i < |ranges| :: ranges[i].initialSlot <= s < ranges[i].finalSlot
  {
    if exists i | 0 <= i < |ranges| :: ranges[i].initialSlot <= s < ranges[i].finalSlot {
      var i :| 0 <= i < |ranges| && ranges[i].initialSlot <= s < ranges[i].finalSlot;
      TilesCoverInside(ranges, lo, hi, s, i);
    }
    if lo <= s < hi {
      var i := TilesCoverSome(ranges, lo, hi, s);
    }
  }

  /** The last slots of tiling ranges strictly increase, ending at `hi - 1`. */
  lemma LastSlotsIncrease(ranges: seq<SlotRange>, lo: int, hi: int)
    requires Tiles(ranges, lo, hi)
    ensures forall i, j | 0 <= i < j < |ranges| :: ranges[i].finalSlot - 1 < ranges[j].finalSlot - 1
    ensures ranges[|ranges| - 1].finalSlot - 1 == hi - 1
  {
    forall i, j | 0 <= i < j < |ranges|
      ensures ranges[i].finalSlot - 1 < ranges[j].finalSlot - 1
    {
      TilesOrdered(ranges, lo, hi, i, j);
    }
  }

  // Worker partition of one chunk

  /** `a <= b` and `c >= 0` give `a * c <= b * c`. */
  lemma MulMonotone(a: nat, b: nat, c: nat)
    requires a <= b
    ensures a * c <= b * c
  {
    assert b * c == a * c + (b - a) * c;
  }

  /** With `t` workers for `n` slots, every worker gets at least one slot and
      worker `i`'s slots end within the chunk; the last worker's end at it. */
  lemma SubRangeArith(n: nat, t: nat, i: nat)
    requires 1 <= t <= n && i < t
    ensures 1 <= n / t
    ensures i * (n / t) + n / t <= n
    ensures (i + 1) * (n / t) == i * (n / t) + n / t
    ensures i == t - 1 ==> i * (n / t) + n / t + n % t == n
  {
    var per := n / t;
    assert n == t * per + n % t && n % t < t;
    assert (i + 1) * per == i * per + per;
    MulMonotone(i + 1, t, per);
    assert t * per == per * t;
  }

  /** The number of workers of a chunk of `n > 0` slots. */
  function WorkerCount(numThreads: nat, n: nat): nat {
    Min(numThreads, n)
  }

  /** Worker `i`'s sub-range of `[fromSlot, toSlot)`: `n / t` slots each, the
      last worker also taking the `n % t` remaining ones. */
  function SubRange(numThreads: nat, fromSlot: U32, toSlot: U32, i: nat): SlotRange
    requires fromSlot < toSlot && numThreads >= 1
    requires i < WorkerCount(numThreads, toSlot - fromSlot)
  {
    var n := toSlot - fromSlot;
    var t := WorkerCount(numThreads, n);
    var per := n / t;
    var size := if i == t - 1 then per + n % t else per;
    SubRangeArith(n, t, i);
    SlotRange(fromSlot + i * per, fromSlot + i * per + size)
  }

  function Partition(numThreads: nat, fromSlot: U32, toSlot: U32): seq<SlotRange>
    requires fromSlot < toSlot && numThreads >= 1
  {
    var t := WorkerCount(numThreads, toSlot - fromSlot);
    seq(t, i requires 0 <= i < t => SubRange(numThreads, fromSlot, toSlot, i))
  }

  /** Worker `i`'s sub-range starts `i * (n / t)` slots in, is not empty, and
      the last one ends at `toSlot`. */
  lemma SubRangeBounds(numThreads: nat, fromSlot: U32, toSlot: U32, i: nat)
    requires fromSlot < toSlot && numThreads >= 1
    requires i < WorkerCount(numThreads, toSlot - fromSlot)
    ensures var n := toSlot - fromSlot;
            var t := WorkerCount(numThreads, n);
            var r := SubRange(numThreads, fromSlot, toSlot, i);
            && r.initialSlot == fromSlot + i * (n / t)
            && r.initialSlot < r.finalSlot
            && (i < t - 1 ==> r.finalSlot == fromSlot + (i + 1) * (n / t) && r.finalSlot - r.initialSlot == n / t)
            && (i == t - 1 ==> r.finalSlot == toSlot && r.finalSlot - r.initialSlot == n / t + n % t)
  {
    var n := toSlot - fromSlot;
    var t := WorkerCount(numThreads, n);
    SubRangeArith(n, t, i);
  }

  /** A chunk is split into `min(num_threads, to - from)` contiguous, disjoint
      sub-ranges covering it; all but the last hold `n / t` slots, the last
      one the remainder too. */
  lemma PartitionTiles(numThreads: nat, fromSlot: U32, toSlot: U32)
    requires fromSlot < toSlot && numThreads >= 1
    ensures var ranges := Partition(numThreads, fromSlot, toSlot);
            var n := toSlot - fromSlot;
            var t := Min(numThreads, n);
            |ranges| == t
            && Tiles(ranges, fromSlot, toSlot)
            && (forall i | 0 <= i < t - 1 :: ranges[i].finalSlot - ranges[i].initialSlot == n / t)
            && ranges[t - 1].finalSlot - ranges[t - 1].initialSlot == n / t + n % t
  {
    var ranges := Partition(numThreads, fromSlot, toSlot);
    var n := toSlot - fromSlot;
    var t := WorkerCount(numThreads, n);
    forall i | 0 <= i < t
      ensures ranges[i].initialSlot < ranges[i].finalSlot
      ensures i < t - 1 ==> ranges[i].finalSlot - ranges[i].initialSlot == n / t
    {
      SubRangeBounds(numThreads, fromSlot, toSlot, i);
    }
    forall i | 0 <= i < t - 1
      ensures ranges[i].finalSlot == ranges[i + 1].initialSlot
    {
      SubRangeBounds(numThreads, fromSlot, toSlot, i);
      SubRangeBounds(numThreads, fromSlot, toSlot, i + 1);
    }
    SubRangeBounds(numThreads, fromSlot, toSlot, 0);
    SubRangeBounds(numThreads, fromSlot, toSlot, t - 1);
  }

  // One worker

  predicate SlotOk(slots: SlotOutcomes, slot: U32) {
    slots(slot).Ok?
  }

  /** The first slot of `[lo, hi)` that fails, if any. */
  function FirstFailure(slots: SlotOutcomes, lo: U32, hi: U32): (r: Option<U32>)
    ensures r.Some? ==> lo <= r.value < hi && !SlotOk(slots, r.value)
    decreases hi - lo
  {
    if lo >= hi then None
    else if !SlotOk(slots, lo) then Some(lo)
    else FirstFailure(slots, lo + 1, hi)
  }

  lemma {:induction false} FirstFailureSpec(slots: SlotOutcomes, lo: U32, hi: U32)
    ensures FirstFailure(slots, lo, hi).None? <==> forall s: U32 | lo <= s < hi :: SlotOk(slots, s)
    ensures FirstFailure(slots, lo, hi).Some? ==>
              var f := FirstFailure(slots, lo, hi).value;
              lo <= f < hi && !SlotOk(slots, f) && forall s: U32 | lo <= s < f :: SlotOk(slots, s)
    decreases hi - lo
  {
    if lo < hi && SlotOk(slots, lo) {
      FirstFailureSpec(slots, lo + 1, hi);
    }
  }

  /** What a worker over `range` returns. */
  function WorkerSpec(slots: SlotOutcomes, range: SlotRange): Result<(), ThreadError> {
    match FirstFailure(slots, range.initialSlot, range.finalSlot)
    case None => Ok(())
    case Some(f) =>
      Err(FailedSlotsChunkProcessing(range.initialSlot, range.finalSlot, f,
                                     slots(f).error))
  }

  /** A worker succeeds iff every slot of its sub-range does; a failure names
      the first failing slot, which lies in the sub-range. */
  lemma WorkerOutcome(slots: SlotOutcomes, range: SlotRange)
    ensures WorkerSpec(slots, range).Ok? <==>
              forall s: U32 | range.initialSlot <= s < range.finalSlot :: SlotOk(slots, s)
    ensures WorkerSpec(slots, range).Err? ==>
              var e := WorkerSpec(slots, range).error;
              e.initialSlot == range.initialSlot && e.finalSlot == range.finalSlot
              && range.initialSlot <= e.failedSlot < range.finalSlot
              && slots(e.failedSlot) == Err(e.error)
              && forall s: U32 | range.initialSlot <= s < e.failedSlot :: SlotOk(slots, s)
  {
    FirstFailureSpec(slots, range.initialSlot, range.finalSlot);
  }

  /** The worker's loop: its slots in ascending order until the first failure. */
  method ProcessChunk(c: Clients, ghost slots: SlotOutcomes, initialSlot: U32, finalSlot: U32) returns (r: Result<(), ThreadError>)
    requires IsOutcomes(c, slots)
    requires initialSlot <= finalSlot
    ensures r == WorkerSpec(slots, SlotRange(initialSlot, finalSlot))
  {
    var current := initialSlot;
    while current < finalSlot
      invariant initialSlot <= current <= finalSlot
      invariant FirstFailure(slots, initialSlot, finalSlot) == FirstFailure(slots, current, finalSlot)
      decreases finalSlot - current
    {
      var outcome := SlotProcessor.ProcessSlot(c, current);
      if outcome.result.Err? {
        r := Err(FailedSlotsChunkProcessing(initialSlot, finalSlot, current, outcome.result.error));
        return;
      }
      current := current + 1;
    }
    r := Ok(());
  }

  // Error aggregation

  /** The errors of the failed workers, in worker order. */
  function ChunkErrors(results: seq<Result<(), ThreadError>>): seq<ThreadError> {
    if results == [] then []
    else
      var last := results[|results| - 1];
      ChunkErrors(results[..|results| - 1]) + (if last.Err? then [last.error] else [])
  }

  lemma {:induction false} ChunkErrorsMembers(results: seq<Result<(), ThreadError>>)
    ensures ChunkErrors(results) == [] <==> forall i | 0 <= i < |results| :: results[i].Ok?
    ensures forall e :: e in ChunkErrors(results) <==> Err(e) in results
  {
    if results != [] {
      var init := results[..|results| - 1];
      ChunkErrorsMembers(init);
      assert results == init + [results[|results| - 1]];
      if forall i | 0 <= i < |results| :: results[i].Ok? {
        assert forall i | 0 <= i < |init| :: init[i] == results[i];
      }
    }
  }

  function WorkerResults(slots: SlotOutcomes, ranges: seq<SlotRange>): (rs: seq<Result<(), ThreadError>>)
    ensures |rs| == |ranges|
  {
    seq(|ranges|, i requires 0 <= i < |ranges| => WorkerSpec(slots, ranges[i]))
  }

  /** What `_sync_slots(from, to)` returns. */
  function SyncSlotsSpec(slots: SlotOutcomes, numThreads: nat, fromSlot: U32, toSlot: U32): Result<(), SynchronizerError>
    requires fromSlot <= toSlot && numThreads >= 1
  {
    if fromSlot == toSlot then Ok(())
    else
      var errors := ChunkErrors(WorkerResults(slots, Partition(numThreads, fromSlot, toSlot)));
      if errors == [] then Ok(())
      else Err(FailedSlotsProcessing(fromSlot, toSlot, errors))
  }

  /** A chunk succeeds iff every one of its slots does. */
  lemma SyncSlotsOk(slots: SlotOutcomes, numThreads: nat, fromSlot: U32, toSlot: U32)
    requires fromSlot <= toSlot && numThreads >= 1
    ensures SyncSlotsSpec(slots, numThreads, fromSlot, toSlot).Ok? <==>
              forall s: U32 | fromSlot <= s < toSlot :: SlotOk(slots, s)
  {
    if fromSlot < toSlot {
      var ranges := Partition(numThreads, fromSlot, toSlot);
      var results := WorkerResults(slots, ranges);
      PartitionTiles(numThreads, fromSlot, toSlot);
      ChunkErrorsMembers(results);
      if SyncSlotsSpec(slots, numThreads, fromSlot, toSlot).Ok? {
        forall s: U32 | fromSlot <= s < toSlot
          ensures SlotOk(slots, s)
        {
          TilesCover(ranges, fromSlot, toSlot, s);
          var i :| 0 <= i < |ranges| && ranges[i].initialSlot <= s < ranges[i].finalSlot;
          assert results[i].Ok?;
          WorkerOutcome(slots, ranges[i]);
        }
      } else {
        var i :| 0 <= i < |results| && !results[i].Ok?;
        WorkerOutcome(slots, ranges[i]);
        var s: U32 :| ranges[i].initialSlot <= s < ranges[i].finalSlot && !SlotOk(slots, s);
        TilesCover(ranges, fromSlot, toSlot, s);
      }
    }
  }

  /** A failed chunk lists exactly the failed workers' errors; each names its
      sub-range and the first failing slot in it. */
  lemma SyncSlotsErrors(slots: SlotOutcomes, numThreads: nat, fromSlot: U32, toSlot: U32)
    requires fromSlot <= toSlot && numThreads >= 1
    requires SyncSlotsSpec(slots, numThreads, fromSlot, toSlot).Err?
    ensures fromSlot < toSlot
    ensures var ranges := Partition(numThreads, fromSlot, toSlot);
            var err := SyncSlotsSpec(slots, numThreads, fromSlot, toSlot).error;
            err.FailedSlotsProcessing? && err.initialSlot == fromSlot && err.finalSlot == toSlot
            && |err.chunkErrors| > 0
            && (forall i | 0 <= i < |ranges| && WorkerSpec(slots, ranges[i]).Err? ::
                  WorkerSpec(slots, ranges[i]).error in err.chunkErrors)
            && (forall e | e in err.chunkErrors ::
                  exists i | 0 <= i < |ranges| :: WorkerSpec(slots, ranges[i]) == Err(e)
                    && ranges[i].initialSlot <= e.failedSlot < ranges[i].finalSlot
                    && !SlotOk(slots, e.failedSlot))
  {
    var ranges := Partition(numThreads, fromSlot, toSlot);
    var results := WorkerResults(slots, ranges);
    ChunkErrorsMembers(results);
    var errors := ChunkErrors(results);
    forall i | 0 <= i < |ranges| && WorkerSpec(slots, ranges[i]).Err?
      ensures WorkerSpec(slots, ranges[i]).error in errors
    {
      assert results[i] == WorkerSpec(slots, ranges[i]);
    }
    forall e | e in errors
      ensures exists i | 0 <= i < |ranges| :: WorkerSpec(slots, ranges[i]) == Err(e)
                && ranges[i].initialSlot <= e.failedSlot < ranges[i].finalSlot
                && !SlotOk(slots, e.failedSlot)
    {
      var i :| 0 <= i < |results| && results[i] == Err(e);
      WorkerOutcome(slots, ranges[i]);
    }
  }

  lemma TilesInit(ranges: seq<SlotRange>, lo: int, hi: int)
    requires Tiles(ranges, lo, hi) && |ranges| > 1
    ensures Tiles(ranges[..|ranges| - 1], lo, ranges[|ranges| - 2].finalSlot)
    ensures ranges[|ranges| - 2].finalSlot == ranges[|ranges| - 1].initialSlot
  {
    var init := ranges[..|ranges| - 1];
    assert forall i | 0 <= i < |init| :: init[i] == ranges[i];
  }

  /** Appending at most one error above `mid` to errors ascending in
      `[lo, mid)` keeps them ascending. */
  lemma AscendingAppend(prev: seq<ThreadError>, tail: seq<ThreadError>, lo: int, mid: int, hi: int)
    requires forall e | e in prev :: lo <= e.failedSlot < mid
    requires forall i, j | 0 <= i < j < |prev| :: prev[i].failedSlot < prev[j].failedSlot
    requires |tail| <= 1 && forall e | e in tail :: mid <= e.failedSlot < hi
    requires lo <= mid <= hi
    ensures forall e | e in prev + tail :: lo <= e.failedSlot < hi
    ensures forall i, j | 0 <= i < j < |prev + tail| :: (prev + tail)[i].failedSlot < (prev + tail)[j].failedSlot
  {
    var all := prev + tail;
    forall i, j | 0 <= i < j < |all|
      ensures all[i].failedSlot < all[j].failedSlot
    {
      assert all[i] == prev[i];
      if j >= |prev| {
        assert all[j] in tail;
        assert prev[i] in prev;
      }
    }
  }

  /** Over tiling sub-ranges, the gathered errors name failing slots of
      `[lo, hi)` in strictly ascending order: worker order is slot order. */
  lemma {:induction false} ChunkErrorsAscending(slots: SlotOutcomes, ranges: seq<SlotRange>, lo: int, hi: int)
    requires Tiles(ranges, lo, hi)
    ensures var errors := ChunkErrors(WorkerResults(slots, ranges));
            (forall e | e in errors :: lo <= e.failedSlot < hi)
            && forall i, j | 0 <= i < j < |errors| :: errors[i].failedSlot < errors[j].failedSlot
    decreases |ranges|
  {
    var n := |ranges|;
    var results := WorkerResults(slots, ranges);
    var last := results[n - 1];
    assert last == WorkerSpec(slots, ranges[n - 1]);
    WorkerOutcome(slots, ranges[n - 1]);
    var tail: seq<ThreadError> := if last.Err? then [last.error] else [];
    assert ChunkErrors(results) == ChunkErrors(results[..n - 1]) + tail;
    var mid := ranges[n - 1].initialSlot;
    if n == 1 {
      assert results[..n - 1] == [];
      AscendingAppend([], tail, lo, mid, hi);
    } else {
      var init := ranges[..n - 1];
      TilesInit(ranges, lo, hi);
      TilesOrdered(ranges, lo, hi, 0, n - 1);
      ChunkErrorsAscending(slots, init, lo, mid);
      assert results[..n - 1] == WorkerResults(slots, init);
      AscendingAppend(ChunkErrors(results[..n - 1]), tail, lo, mid, hi);
    }
  }

  /** A failed chunk's errors come in ascending order of their failing
      slots, as the workers are joined in the order they were spawned. */
  lemma SyncSlotsErrorsOrdered(slots: SlotOutcomes, numThreads: nat, fromSlot: U32, toSlot: U32)
    requires fromSlot <= toSlot && numThreads >= 1
    requires SyncSlotsSpec(slots, numThreads, fromSlot, toSlot).Err?
    ensures var err := SyncSlotsSpec(slots, numThreads, fromSlot, toSlot).error;
            err.FailedSlotsProcessing?
            && forall i, j | 0 <= i < j < |err.chunkErrors| ::
                 err.chunkErrors[i].failedSlot < err.chunkErrors[j].failedSlot
  {
    assert fromSlot < toSlot;
    PartitionTiles(numThreads, fromSlot, toSlot);
    ChunkErrorsAscending(slots, Partition(numThreads, fromSlot, toSlot), fromSlot, toSlot);
  }

  /** The spawning loop of `_sync_slots`: one worker per sub-range, each run
      to its end here; `handles` holds their results in worker order. */
  method SpawnWorkers(c: Clients, ghost slots: SlotOutcomes, numThreads: U32, fromSlot: U32, toSlot: U32)
    returns (handles: seq<Result<(), ThreadError>>)
    requires IsOutcomes(c, slots)
    requires fromSlot < toSlot && numThreads >= 1
    ensures handles == WorkerResults(slots, Partition(numThreads, fromSlot, toSlot))
  {
    var unprocessed := toSlot - fromSlot;
    var minThreads := Min(numThreads, unprocessed);
    var perThread := unprocessed / minThreads;
    var remaining := unprocessed % minThreads;
    SubRangeArith(unprocessed, minThreads, 0);
    var threads := if perThread > 0 then minThreads else unprocessed;
    ghost var ranges := Partition(numThreads, fromSlot, toSlot);
    handles := [];
    for i := 0 to threads
      invariant |handles| == i
      invariant forall k | 0 <= k < i :: handles[k] == WorkerSpec(slots, ranges[k])
    {
      var inThread := if i == threads - 1 then perThread + remaining else perThread;
      SubRangeArith(unprocessed, threads, i);
      var initialSlot := fromSlot + i * perThread;
      var finalSlot := initialSlot + inThread;
      assert ranges[i] == SubRange(numThreads, fromSlot, toSlot, i);
      assert SlotRange(initialSlot, finalSlot) == ranges[i];
      var handle := ProcessChunk(c, slots, initialSlot, finalSlot);
      handles := handles + [handle];
    }
  }

  /** The joining loop of `_sync_slots`: the errors of the failed workers. */
  method JoinWorkers(handles: seq<Result<(), ThreadError>>) returns (errors: seq<ThreadError>)
    ensures errors == ChunkErrors(handles)
  {
    errors := [];
    for i := 0 to |handles|
      invariant errors == ChunkErrors(handles[..i])
    {
      assert handles[..i + 1][..i] == handles[..i];
      if handles[i].Err? {
        errors := errors + [handles[i].error];
      }
    }
    assert handles[..|handles|] == handles;
  }

  /** `_sync_slots`: a chunk succeeds when every worker does; otherwise its
      error lists the workers' errors. */
  method SyncSlots(c: Clients, ghost slots: SlotOutcomes, numThreads: U32, fromSlot: U32, toSlot: U32) returns (r: Result<(), SynchronizerError>)
    requires IsOutcomes(c, slots)
    requires fromSlot <= toSlot && numThreads >= 1
    ensures r == SyncSlotsSpec(slots, numThreads, fromSlot, toSlot)
  {
    if fromSlot == toSlot {
      return Ok(());
    }
    var handles := SpawnWorkers(c, slots, numThreads, fromSlot, toSlot);
    var errors := JoinWorkers(handles);
    if errors == [] {
      r := Ok(());
    } else {
      r := Err(FailedSlotsProcessing(fromSlot, toSlot, errors));
    }
  }

  // The checkpoint loop of `run`

  /** The chunks of `[current, toSlot)`: `min(remaining, checkpoint)` slots each. */
  function Chunks(current: U32, toSlot: U32, checkpoint: nat): seq<SlotRange>
    requires checkpoint > 0
    decreases toSlot - current
  {
    if current >= toSlot then []
    else
      var size := Min(toSlot - current, checkpoint);
      [SlotRange(current, current + size)] + Chunks(current + size, toSlot, checkpoint)
  }

  lemma ChunksCons(current: U32, toSlot: U32, checkpoint: nat)
    requires checkpoint > 0 && current < toSlot
    ensures var size := Min(toSlot - current, checkpoint);
            var chunks := Chunks(current, toSlot, checkpoint);
            var rest := Chunks(current + size, toSlot, checkpoint);
            && chunks[0] == SlotRange(current, current + size)
            && |chunks| == |rest| + 1
            && (forall i | 1 <= i < |chunks| :: chunks[i] == rest[i - 1])
  {
  }

  lemma {:induction false} ChunksTiling(current: U32, toSlot: U32, checkpoint: nat)
    requires checkpoint > 0 && current < toSlot
    ensures Tiles(Chunks(current, toSlot, checkpoint), current, toSlot)
    decreases toSlot - current
  {
    var size := Min(toSlot - current, checkpoint);
    var rest := Chunks(current + size, toSlot, checkpoint);
    var chunks := Chunks(current, toSlot, checkpoint);
    assert chunks == [SlotRange(current, current + size)] + rest;
    if current + size < toSlot {
      ChunksTiling(current + size, toSlot, checkpoint);
      TilesCons(SlotRange(current, current + size), rest, current, toSlot);
    } else {
      assert rest == [];
    }
  }

  lemma {:induction false} ChunkSize(current: U32, toSlot: U32, checkpoint: nat, i: nat)
    requires checkpoint > 0 && current < toSlot
    requires i < |Chunks(current, toSlot, checkpoint)|
    ensures var chunk := Chunks(current, toSlot, checkpoint)[i];
            chunk.finalSlot - chunk.initialSlot == Min(toSlot - chunk.initialSlot, checkpoint)
    decreases toSlot - current
  {
    var size := Min(toSlot - current, checkpoint);
    ChunksCons(current, toSlot, checkpoint);
    if i > 0 {
      ChunkSize(current + size, toSlot, checkpoint, i - 1);
    }
  }

  /** The chunks tile `[current, toSlot)`; each holds `min(remaining,
      checkpoint)` slots, so every chunk but the last is a full checkpoint. */
  lemma ChunksTile(current: U32, toSlot: U32, checkpoint: nat)
    requires checkpoint > 0 && current < toSlot
    ensures var chunks := Chunks(current, toSlot, checkpoint);
            Tiles(chunks, current, toSlot)
            && (forall i | 0 <= i < |chunks| ::
                  chunks[i].finalSlot - chunks[i].initialSlot == Min(toSlot - chunks[i].initialSlot, checkpoint))
            && (forall i | 0 <= i < |chunks| - 1 :: chunks[i].finalSlot - chunks[i].initialSlot == checkpoint)
  {
    var chunks := Chunks(current, toSlot, checkpoint);
    ChunksTiling(current, toSlot, checkpoint);
    var last := |chunks| - 1;
    forall i | 0 <= i < |chunks|
      ensures chunks[i].finalSlot - chunks[i].initialSlot == Min(toSlot - chunks[i].initialSlot, checkpoint)
      ensures i < last ==> chunks[i].finalSlot - chunks[i].initialSlot == checkpoint
    {
      ChunkSize(current, toSlot, checkpoint, i);
      if i < last {
        TilesOrdered(chunks, current, toSlot, i, last);
        assert chunks[last].initialSlot < chunks[last].finalSlot == toSlot;
      }
    }
  }

  /** One turn of `run`'s loop: sync the chunk, then record its last slot;
      the first failure is the turn's error. */
  function ChunkOutcome(slots: SlotOutcomes, updateSlot: U32 -> Result<(), Common.ClientError>,
                        numThreads: nat, range: SlotRange): Result<(), SynchronizerError>
    requires numThreads >= 1 && range.initialSlot < range.finalSlot
  {
    var synced := SyncSlotsSpec(slots, numThreads, range.initialSlot, range.finalSlot);
    if synced.Err? then synced
    else
      match updateSlot(range.finalSlot - 1)
      case Err(e) => Err(SynchronizerError.ClientError(e))
      case Ok(_) => Ok(())
  }

  /** A turn fails only when its chunk fails or recording its last slot does. */
  lemma ChunkOutcomeCases(slots: SlotOutcomes, updateSlot: U32 -> Result<(), Common.ClientError>,
                          numThreads: nat, range: SlotRange)
    requires numThreads >= 1 && range.initialSlot < range.finalSlot
    ensures ChunkOutcome(slots, updateSlot, numThreads, range).Ok? <==>
              (forall s: U32 | range.initialSlot <= s < range.finalSlot :: SlotOk(slots, s))
              && updateSlot(range.finalSlot - 1).Ok?
    ensures SyncSlotsSpec(slots, numThreads, range.initialSlot, range.finalSlot).Err? ==>
              ChunkOutcome(slots, updateSlot, numThreads, range)
              == SyncSlotsSpec(slots, numThreads, range.initialSlot, range.finalSlot)
  {
    SyncSlotsOk(slots, numThreads, range.initialSlot, range.finalSlot);
  }

  /** Chunk `range` was synced and `slot`, its last slot, recorded after it. */
  ghost predicate ChunkRecorded(slots: SlotOutcomes, updateSlot: U32 -> Result<(), Common.ClientError>,
                                numThreads: nat, range: SlotRange, slot: int) {
    numThreads >= 1 && range.initialSlot < range.finalSlot && slot == range.finalSlot - 1
    && ChunkOutcome(slots, updateSlot, numThreads, range).Ok?
  }

  /** Every slot of the tiled range succeeds when every chunk was recorded. */
  lemma ChunksOk(slots: SlotOutcomes, updateSlot: U32 -> Result<(), Common.ClientError>, numThreads: nat,
                 checkpoint: nat, recorded: seq<U32>, lo: U32, hi: U32)
    requires checkpoint > 0 && lo < hi
    requires var chunks := Chunks(lo, hi, checkpoint);
             |recorded| == |chunks|
             && forall k | 0 <= k < |chunks| :: ChunkRecorded(slots, updateSlot, numThreads, chunks[k], recorded[k])
    ensures forall s: U32 | lo <= s < hi :: SlotOk(slots, s)
  {
    var chunks := Chunks(lo, hi, checkpoint);
    ChunksTile(lo, hi, checkpoint);
    forall s: U32 | lo <= s < hi
      ensures SlotOk(slots, s)
    {
      TilesCover(chunks, lo, hi, s);
      var k :| 0 <= k < |chunks| && chunks[k].initialSlot <= s < chunks[k].finalSlot;
      assert ChunkRecorded(slots, updateSlot, numThreads, chunks[k], recorded[k]);
      ChunkOutcomeCases(slots, updateSlot, numThreads, chunks[k]);
    }
  }

  /** Every chunk started so far was synced and its last slot recorded. */
  ghost predicate AllRecorded(slots: SlotOutcomes, updateSlot: U32 -> Result<(), Common.ClientError>,
                              numThreads: nat, processed: seq<SlotRange>, recorded: seq<U32>) {
    |recorded| == |processed|
    && forall k | 0 <= k < |recorded| :: ChunkRecorded(slots, updateSlot, numThreads, processed[k], recorded[k])
  }

  lemma AllRecordedAppend(slots: SlotOutcomes, updateSlot: U32 -> Result<(), Common.ClientError>, numThreads: nat,
                          processed: seq<SlotRange>, recorded: seq<U32>, range: SlotRange, slot: U32)
    requires AllRecorded(slots, updateSlot, numThreads, processed, recorded)
    requires ChunkRecorded(slots, updateSlot, numThreads, range, slot)
    ensures AllRecorded(slots, updateSlot, numThreads, processed + [range], recorded + [slot])
  {
  }

  /** Starting one more chunk keeps the earlier chunks' records. */
  lemma AllRecordedStarted(slots: SlotOutcomes, updateSlot: U32 -> Result<(), Common.ClientError>, numThreads: nat,
                           processed: seq<SlotRange>, recorded: seq<U32>, range: SlotRange)
    requires AllRecorded(slots, updateSlot, numThreads, processed, recorded)
    ensures forall k | 0 <= k < |recorded| ::
              ChunkRecorded(slots, updateSlot, numThreads, (processed + [range])[k], recorded[k])
  {
  }

  lemma MoveOne<T>(whole: seq<T>, done: seq<T>, x: T, rest: seq<T>)
    requires whole == done + ([x] + rest)
    ensures whole == (done + [x]) + rest
    ensures |done + [x]| <= |whole| && done + [x] == whole[..|done| + 1]
  {
    assert done + ([x] + rest) == (done + [x]) + rest;
  }

  /** One turn of `run`'s loop moves the next chunk from the rest of the
      tiling to the chunks started. */
  lemma ChunksAdvance(chunks: seq<SlotRange>, processed: seq<SlotRange>, current: U32, toSlot: U32, checkpoint: nat)
    requires checkpoint > 0 && current < toSlot
    requires chunks == processed + Chunks(current, toSlot, checkpoint)
    ensures var next := current + Min(toSlot - current, checkpoint);
            var started := processed + [SlotRange(current, next)];
            && chunks == started + Chunks(next, toSlot, checkpoint)
            && |started| <= |chunks| && started == chunks[..|started|]
  {
    var next := current + Min(toSlot - current, checkpoint);
    MoveOne(chunks, processed, SlotRange(current, next), Chunks(next, toSlot, checkpoint));
  }

  /** The body of `run`'s loop. */
  method SyncChunk(c: Clients, ghost slots: SlotOutcomes, updateSlot: U32 -> Result<(), Common.ClientError>, numThreads: U32,
                   initialChunkSlot: U32, finalChunkSlot: U32) returns (r: Result<(), SynchronizerError>)
    requires IsOutcomes(c, slots)
    requires numThreads >= 1 && initialChunkSlot < finalChunkSlot
    ensures r == ChunkOutcome(slots, updateSlot, numThreads, SlotRange(initialChunkSlot, finalChunkSlot))
  {
    r := SyncSlots(c, slots, numThreads, initialChunkSlot, finalChunkSlot);
    if r.Err? {
      return;
    }
    var updated := updateSlot(finalChunkSlot - 1);
    if updated.Err? {
      r := Err(SynchronizerError.ClientError(updated.error));
      return;
    }
  }

  function StartAfterEnd(fromSlot: U32, toSlot: U32): AnyError {
    AnyError("Starting slot (" + ToDecimal(fromSlot) + ") is greater than final slot (" + ToDecimal(toSlot) + ")")
  }

  /** What a run over a non-empty range leaves behind: the chunks started
      are a prefix of the tiling; on success every chunk was started and
      recorded, and on failure every chunk but the last, which failed. */
  ghost predicate RunRecords(slots: SlotOutcomes, updateSlot: U32 -> Result<(), Common.ClientError>, numThreads: nat,
                             chunks: seq<SlotRange>, r: Result<(), SynchronizerError>,
                             processed: seq<SlotRange>, recorded: seq<U32>) {
    |processed| <= |chunks| && processed == chunks[..|processed|]
    && (r.Ok? ==> processed == chunks && AllRecorded(slots, updateSlot, numThreads, processed, recorded))
    && (r.Err? ==>
          |processed| > 0
          && AllRecorded(slots, updateSlot, numThreads, processed[..|processed| - 1], recorded)
          && var last := processed[|processed| - 1];
             numThreads >= 1 && last.initialSlot < last.finalSlot
             && r == ChunkOutcome(slots, updateSlot, numThreads, last))
  }

  /** One turn of `run`'s loop: sync the chunk starting at `current` and
      record its last slot. */
  method RunTurn(c: Clients, ghost slots: SlotOutcomes, updateSlot: U32 -> Result<(), Common.ClientError>,
                 config: Config, current: U32, toSlot: U32, ghost chunks: seq<SlotRange>,
                 processed: seq<SlotRange>, recorded: seq<U32>)
    returns (r: Result<(), SynchronizerError>, next: U32, processed': seq<SlotRange>, recorded': seq<U32>)
    requires IsOutcomes(c, slots)
    requires config.slotsCheckpoint > 0 && config.numThreads >= 1 && current < toSlot
    requires chunks == processed + Chunks(current, toSlot, config.slotsCheckpoint)
    requires AllRecorded(slots, updateSlot, config.numThreads, processed, recorded)
    ensures current < next <= toSlot && processed' == processed + [SlotRange(current, next)]
    ensures chunks == processed' + Chunks(next, toSlot, config.slotsCheckpoint)
    ensures |processed'| <= |chunks| && processed' == chunks[..|processed'|]
    ensures r.Ok? ==> AllRecorded(slots, updateSlot, config.numThreads, processed', recorded')
    ensures r.Err? ==>
              recorded' == recorded
              && r == ChunkOutcome(slots, updateSlot, config.numThreads, SlotRange(current, next))
  {
    var slotsChunk := Min(toSlot - current, config.slotsCheckpoint);
    next := current + slotsChunk;
    ChunksAdvance(chunks, processed, current, toSlot, config.slotsCheckpoint);
    processed' := processed + [SlotRange(current, next)];
    recorded' := recorded;
    r := SyncChunk(c, slots, updateSlot, config.numThreads, current, next);
    if r.Ok? {
      AllRecordedAppend(slots, updateSlot, config.numThreads, processed, recorded,
                        SlotRange(current, next), next - 1);
      recorded' := recorded + [next - 1];
    }
  }

  /** The loop of `run`, over a non-empty range. */
  method RunChunks(c: Clients, ghost slots: SlotOutcomes, updateSlot: U32 -> Result<(), Common.ClientError>,
                   config: Config, fromSlot: U32, toSlot: U32)
    returns (r: Result<(), SynchronizerError>, processed: seq<SlotRange>, recorded: seq<U32>)
    requires IsOutcomes(c, slots)
    requires fromSlot < toSlot && config.slotsCheckpoint > 0 && config.numThreads >= 1
    ensures RunRecords(slots, updateSlot, config.numThreads, Chunks(fromSlot, toSlot, config.slotsCheckpoint),
                       r, processed, recorded)
  {
    processed := [];
    recorded := [];
    ghost var chunks := Chunks(fromSlot, toSlot, config.slotsCheckpoint);
    var current := fromSlot;
    var unprocessed := toSlot - current;
    while unprocessed > 0
      invariant fromSlot <= current <= toSlot && unprocessed == toSlot - current
      invariant chunks == processed + Chunks(current, toSlot, config.slotsCheckpoint)
      invariant |processed| <= |chunks| && processed == chunks[..|processed|]
      invariant AllRecorded(slots, updateSlot, config.numThreads, processed, recorded)
      decreases unprocessed
    {
      ghost var before := processed;
      r, current, processed, recorded := RunTurn(c, slots, updateSlot, config, current, toSlot,
                                                 chunks, processed, recorded);
      if r.Err? {
        assert processed[..|processed| - 1] == before;
        return;
      }
      unprocessed := toSlot - current;
    }
    r := Ok(());
  }

  /** Spells out `RunRecords` for the tiling of `[from, to)`. */
  lemma RunRecordsMeaning(slots: SlotOutcomes, updateSlot: U32 -> Result<(), Common.ClientError>, config: Config,
                          fromSlot: U32, toSlot: U32, r: Result<(), SynchronizerError>,
                          processed: seq<SlotRange>, recorded: seq<U32>)
    requires fromSlot < toSlot && config.slotsCheckpoint > 0 && config.numThreads >= 1
    requires RunRecords(slots, updateSlot, config.numThreads, Chunks(fromSlot, toSlot, config.slotsCheckpoint),
                        r, processed, recorded)
    ensures var chunks := Chunks(fromSlot, toSlot, config.slotsCheckpoint);
            |processed| <= |chunks| && processed == chunks[..|processed|]
            && |recorded| == (if r.Ok? then |processed| else |processed| - 1)
            && forall k | 0 <= k < |recorded| ::
                 ChunkRecorded(slots, updateSlot, config.numThreads, processed[k], recorded[k])
    ensures r.Ok? ==>
              processed == Chunks(fromSlot, toSlot, config.slotsCheckpoint)
              && forall s: U32 | fromSlot <= s < toSlot :: SlotOk(slots, s)
    ensures r.Err? ==>
              |processed| > 0
              && var last := processed[|processed| - 1];
                 last.initialSlot < last.finalSlot
                 && r == ChunkOutcome(slots, updateSlot, config.numThreads, last)
  {
    if r.Ok? {
      ChunksOk(slots, updateSlot, config.numThreads, config.slotsCheckpoint, recorded, fromSlot, toSlot);
    } else {
      var before := processed[..|processed| - 1];
      forall k | 0 <= k < |recorded|
        ensures ChunkRecorded(slots, updateSlot, config.numThreads, processed[k], recorded[k])
      {
        assert processed[k] == before[k];
      }
    }
  }

  /** `run(from, to)`. `updateSlot(s)` is the outcome of recording `s` as the
      latest indexed slot, retries included. `processed` are the chunks
      started, `recorded` the slots recorded. */
  method Run(c: Clients, ghost slots: SlotOutcomes, updateSlot: U32 -> Result<(), Common.ClientError>, config: Config, fromSlot: U32, toSlot: U32)
    returns (r: Result<(), SynchronizerError>, processed: seq<SlotRange>, recorded: seq<U32>)
    requires IsOutcomes(c, slots)
    requires fromSlot < toSlot ==> config.slotsCheckpoint > 0 && config.numThreads >= 1
    ensures fromSlot >= toSlot ==> processed == [] && recorded == []
    ensures fromSlot == toSlot ==> r == Ok(())
    ensures fromSlot > toSlot ==> r == Err(Other(StartAfterEnd(fromSlot, toSlot)))
    ensures fromSlot < toSlot ==>
              var chunks := Chunks(fromSlot, toSlot, config.slotsCheckpoint);
              |processed| <= |chunks| && processed == chunks[..|processed|]
              && |recorded| == (if r.Ok? then |processed| else |processed| - 1)
              && forall k | 0 <= k < |recorded| ::
                   ChunkRecorded(slots, updateSlot, config.numThreads, processed[k], recorded[k])
    ensures fromSlot < toSlot && r.Ok? ==>
              processed == Chunks(fromSlot, toSlot, config.slotsCheckpoint)
              && forall s: U32 | fromSlot <= s < toSlot :: SlotOk(slots, s)
    ensures fromSlot < toSlot && r.Err? ==>
              |processed| > 0
              && var last := processed[|processed| - 1];
                 last.initialSlot < last.finalSlot
                 && r == ChunkOutcome(slots, updateSlot, config.numThreads, last)
  {
    processed := [];
    recorded := [];
    if fromSlot == toSlot {
      r := Ok(());
      return;
    }
    if fromSlot > toSlot {
      r := Err(Other(StartAfterEnd(fromSlot, toSlot)));
      return;
    }
    r, processed, recorded := RunChunks(c, slots, updateSlot, config, fromSlot, toSlot);
    RunRecordsMeaning(slots, updateSlot, config, fromSlot, toSlot, r, processed, recorded);
  }

  /** The recorded slots strictly increase, and a successful run records
      `to - 1` last. */
  lemma RecordedSlots(fromSlot: U32, toSlot: U32, checkpoint: nat, recorded: seq<U32>)
    requires checkpoint > 0 && fromSlot < toSlot
    requires var chunks := Chunks(fromSlot, toSlot, checkpoint);
             |recorded| <= |chunks|
             && forall k | 0 <= k < |recorded| :: recorded[k] == chunks[k].finalSlot - 1
    ensures forall i, j | 0 <= i < j < |recorded| :: recorded[i] < recorded[j]
    ensures |recorded| == |Chunks(fromSlot, toSlot, checkpoint)| ==> recorded[|recorded| - 1] == toSlot - 1
  {
    ChunksTile(fromSlot, toSlot, checkpoint);
    LastSlotsIncrease(Chunks(fromSlot, toSlot, checkpoint), fromSlot, toSlot);
  }
}
