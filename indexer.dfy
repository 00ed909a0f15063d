/** The indexer: it reads the stored sync state (with the capped backoff),
    chooses where historical (backwards) and realtime (forwards) syncing
    start, decides which of the two tasks to start, and waits for their
    completion messages. The realtime task follows the beacon node's event
    stream: reorgs walk the parent chain, heads are synced up to the head
    slot, finalized checkpoints update the stored state. Client calls are
    functions of their request. */
module Indexer {
  import opened Common
  import opened Backoff
  import opened BeaconTypes

  /** Blobscan's `BlockchainSyncState`. */
  datatype SyncState = SyncState(lastLowerSyncedSlot: Option<U32>, lastUpperSyncedSlot: Option<U32>,
                                 lastFinalizedBlock: Option<U32>)

  datatype CheckpointType = Lower | Upper | Disabled

  /** The fields of `Indexer` other than its context. */
  datatype IndexerConfig = IndexerConfig(dencunForkSlot: U32, disableSyncHistorical: bool,
                                         checkpointSlots: Option<U32>, disabledCheckpoint: Option<CheckpointType>,
                                         numThreads: U32)

  /** The command-line arguments `try_new` reads. */
  datatype Args = Args(slotsPerSave: Option<U32>, disableSyncCheckpointSave: bool,
                       numThreads: Option<U32>, disableSyncHistorical: bool)

  /** The error of a syncing task, as it reaches `run`. */
  datatype TaskError = HistoricalSyncing(error: AnyError) | Realtime(realtime: RealtimeError)

  datatype IndexerError =
    | CreationFailure(failure: AnyError)
    | BlobscanSyncStateRetrievalError(client: ClientError)
    | TaskFailed(task: TaskError)

  /** `IndexerTaskMessage`. */
  datatype TaskMessage = Done | Error(error: TaskError)

  /** The errors of the three event handlers; `DecodeError` is a payload that
      does not decode. */
  datatype EventHandlingError =
    | DecodeError(message: string)
    | BlockRetrievalError(hash: H256, client: ClientError)
    | ReorgedHandlingFailure(depth: U32, oldHead: H256, client: ClientError)
    | SynchronizerFailure(error: AnyError)
    | Other(other: AnyError)
    | SyncStateUpdateError(client: ClientError)

  datatype RealtimeError =
    | BeaconEventsSubscriptionError(client: ClientError)
    | BeaconEventProcessingError(error: EventHandlingError)
    | UnexpectedBeaconEvent(name: string)
    | EventSourceError(debug: string)

  // Construction

  /** `try_new`: a failed context, or a failed parallelism query when no
      thread count is given, is a creation failure; the dencun slot falls back
      to the network's. `context` is the outcome of creating the context (its
      error's debug text), `parallelism` that of `available_parallelism()`. */
  function TryNew(context: Result<(), string>, args: Args, envDencunForkSlot: Option<U32>,
                  networkDencunForkSlot: U32, parallelism: Result<nat, string>): (r: Result<IndexerConfig, IndexerError>)
    ensures context.Err? ==> r == Err(CreationFailure(AnyError("Failed to create context: " + context.error)))
    ensures context.Ok? && args.numThreads.None? && parallelism.Err? ==>
              r == Err(CreationFailure(AnyError("Failed to get number of available threads: " + parallelism.error)))
    ensures r.Ok? <==> context.Ok? && (args.numThreads.Some? || parallelism.Ok?)
    ensures r.Ok? ==>
              r.value.checkpointSlots == args.slotsPerSave
              && r.value.disableSyncHistorical == args.disableSyncHistorical
              && (r.value.disabledCheckpoint == Some(Disabled) <==> args.disableSyncCheckpointSave)
              && (r.value.disabledCheckpoint.None? <==> !args.disableSyncCheckpointSave)
              && r.value.numThreads == (if args.numThreads.Some? then args.numThreads.value
                                        else parallelism.value % 0x1_0000_0000)
              && r.value.dencunForkSlot == envDencunForkSlot.GetOr(networkDencunForkSlot)
  {
    match context
    case Err(e) => Err(CreationFailure(AnyError("Failed to create context: " + e)))
    case Ok(_) =>
      var checkpointSlots := args.slotsPerSave;
      var disabledCheckpoint := if args.disableSyncCheckpointSave then Some(Disabled) else None;
      var threads: Result<U32, IndexerError> :=
        match args.numThreads
        case Some(n) => Ok(n)
        case None =>
          match parallelism
          case Err(e) => Err(CreationFailure(AnyError("Failed to get number of available threads: " + e)))
          case Ok(p) => var n: U32 := p % 0x1_0000_0000; Ok(n);
      match threads
      case Err(e) => Err(e)
      case Ok(numThreads) =>
        Ok(IndexerConfig(envDencunForkSlot.GetOr(networkDencunForkSlot), args.disableSyncHistorical,
                         checkpointSlots, disabledCheckpoint, numThreads))
  }

  // Start blocks

  /** No start block is given and the stored state holds only an upper slot
      of 0. */
  predicate OnlyUpperSlotZero(startBlockId: Option<BlockId>, state: Option<SyncState>) {
    startBlockId.None? && state.Some? && state.value.lastLowerSyncedSlot.None?
    && state.value.lastUpperSyncedSlot == Some(0)
  }

  /** The lower start block exactly as the code computes it: a stored upper
      slot of 0 with no stored lower slot wraps around to the largest `u32`
      (the subtraction at indexer/mod.rs:133 is not guarded). */
  function LowerStartBlockAsWritten(startBlockId: Option<BlockId>, state: Option<SyncState>): (r: BlockId)
    ensures OnlyUpperSlotZero(startBlockId, state) ==> r == Slot(U32_MAX)
    ensures !OnlyUpperSlotZero(startBlockId, state) ==> r == LowerStartBlock(startBlockId, state)
  {
    match startBlockId
    case Some(id) => id
    case None =>
      match state
      case None => Head
      case Some(s) =>
        match s.lastLowerSyncedSlot
        case Some(slot) => Slot(if slot > 0 then slot - 1 else 0)
        case None =>
          match s.lastUpperSyncedSlot
          case Some(slot) => Slot((slot - 1) % 0x1_0000_0000)
          case None => Head
  }

  /** The lower start block, one slot below the lowest synced slot and never
      below 0. */
  function LowerStartBlock(startBlockId: Option<BlockId>, state: Option<SyncState>): (r: BlockId)
    ensures startBlockId.Some? ==> r == startBlockId.value
    ensures startBlockId.None? && state.None? ==> r == Head
    ensures startBlockId.None? && state.Some? && state.value.lastLowerSyncedSlot.Some? ==>
              r == Slot(Max(state.value.lastLowerSyncedSlot.value - 1, 0))
    ensures startBlockId.None? && state.Some? && state.value.lastLowerSyncedSlot.None?
            && state.value.lastUpperSyncedSlot.Some? ==>
              r == Slot(Max(state.value.lastUpperSyncedSlot.value - 1, 0))
    ensures (startBlockId.None? && state.Some? && state.value.lastLowerSyncedSlot.None?
             && state.value.lastUpperSyncedSlot.None?) ==> r == Head
  {
    match startBlockId
    case Some(id) => id
    case None =>
      match state
      case None => Head
      case Some(s) =>
        match s.lastLowerSyncedSlot
        case Some(slot) => Slot(if slot > 0 then slot - 1 else 0)
        case None =>
          match s.lastUpperSyncedSlot
          case Some(slot) => Slot(if slot > 0 then slot - 1 else 0)
          case None => Head
  }

  /** The two agree except on a stored upper slot of 0 with no lower slot,
      where the code as written jumps to slot 4294967295. */
  lemma LowerStartBlockWraps()
    ensures var state := Some(SyncState(None, Some(0), None));
            LowerStartBlockAsWritten(None, state) == Slot(U32_MAX)
            && LowerStartBlock(None, state) == Slot(0)
  {
  }

  /** The upper start block, one slot above the highest synced slot; a
      stored slot of 4294967295 wraps around to 0 as the unchecked `u32`
      addition does in a release build. */
  function UpperStartBlock(startBlockId: Option<BlockId>, state: Option<SyncState>): (r: BlockId)
    ensures startBlockId.Some? ==> r == startBlockId.value
    ensures startBlockId.None? && state.None? ==> r == Head
    ensures startBlockId.None? && state.Some? && state.value.lastUpperSyncedSlot.Some?
            && state.value.lastUpperSyncedSlot.value < U32_MAX ==>
              r == Slot(state.value.lastUpperSyncedSlot.value + 1)
    ensures startBlockId.None? && state.Some? && state.value.lastUpperSyncedSlot.None?
            && state.value.lastLowerSyncedSlot.Some? && state.value.lastLowerSyncedSlot.value < U32_MAX ==>
              r == Slot(state.value.lastLowerSyncedSlot.value + 1)
    ensures (startBlockId.None? && state.Some? && state.value.lastUpperSyncedSlot.None?
             && state.value.lastLowerSyncedSlot.None?) ==> r == Slot(1)
    ensures startBlockId.None? && state.Some? ==> r.Slot?
  {
    match startBlockId
    case Some(id) => id
    case None =>
      match state
      case None => Head
      case Some(s) =>
        match s.lastUpperSyncedSlot
        case Some(slot) => Slot((slot + 1) % 0x1_0000_0000)
        case None =>
          match s.lastLowerSyncedSlot
          case Some(slot) => Slot((slot + 1) % 0x1_0000_0000)
          case None => Slot(1)
  }

  /** With no start block given and a stored state whose slots are in order
      and below the `u32` limit, the historical task starts strictly below
      the realtime task: the two never begin on the same slot. */
  lemma StartBlocksApart(state: SyncState)
    requires state.lastUpperSyncedSlot.Some? ==> state.lastUpperSyncedSlot.value < U32_MAX
    requires state.lastLowerSyncedSlot.Some? ==> state.lastLowerSyncedSlot.value < U32_MAX
    requires state.lastLowerSyncedSlot.Some? && state.lastUpperSyncedSlot.Some? ==>
               state.lastLowerSyncedSlot.value <= state.lastUpperSyncedSlot.value
    ensures var lower := LowerStartBlock(None, Some(state));
            var upper := UpperStartBlock(None, Some(state));
            upper.Slot? && (lower.Slot? ==> lower.slot < upper.slot)
  {
  }

  // Tasks

  /** Which syncing tasks `run` starts: the realtime task syncs from
      `realtimeStart`, the historical task from `historicalStart` down to
      `endBlockId`. */
  datatype Plan = Plan(realtime: bool, realtimeStart: BlockId, historical: bool, historicalStart: BlockId,
                       endBlockId: BlockId, totalTasks: nat)

  /** `matches!(lower, BlockId::Slot(slot) if slot < dencun_fork_slot)`. */
  predicate HistoricalSyncCompleted(lower: BlockId, dencunForkSlot: U32) {
    lower.Slot? && lower.slot < dencunForkSlot
  }

  /** Which syncing tasks `run` starts; `totalTasks` counts them. */
  method PlanTasks(config: IndexerConfig, lower: BlockId, upper: BlockId, endBlockId: Option<BlockId>) returns (p: Plan)
    ensures p.realtime <==> endBlockId.None?
    ensures p.realtimeStart == upper && p.historicalStart == lower
    ensures p.endBlockId == endBlockId.GetOr(Slot(config.dencunForkSlot))
    ensures p.historical <==> !config.disableSyncHistorical && !HistoricalSyncCompleted(lower, config.dencunForkSlot)
    ensures p.totalTasks == (if p.realtime then 1 else 0) + (if p.historical then 1 else 0)
  {
    var totalTasks := 0;
    var realtime := false;
    if endBlockId.None? {
      realtime := true;
      totalTasks := totalTasks + 1;
    }
    var end := endBlockId.GetOr(Slot(config.dencunForkSlot));
    var completed := lower.Slot? && lower.slot < config.dencunForkSlot;
    var historical := false;
    if !config.disableSyncHistorical && !completed {
      historical := true;
      totalTasks := totalTasks + 1;
    }
    p := Plan(realtime, upper, historical, lower, end, totalTasks);
  }

  /** The synchronizer a task builds: the checkpoint size when one is
      configured (`None` keeps the builder's default), the checkpoint type,
      and the thread count. */
  datatype SynchronizerSettings = SynchronizerSettings(slotsCheckpoint: Option<U32>, checkpointType: CheckpointType,
                                                       numThreads: U32)

  /** `_create_synchronizer`: a disabled checkpoint overrides the type the
      task asks for. */
  function CreateSynchronizer(config: IndexerConfig, checkpointType: CheckpointType): (s: SynchronizerSettings)
    ensures s.slotsCheckpoint == config.checkpointSlots && s.numThreads == config.numThreads
    ensures config.disabledCheckpoint.Some? ==> s.checkpointType == config.disabledCheckpoint.value
    ensures config.disabledCheckpoint.None? ==> s.checkpointType == checkpointType
  {
    SynchronizerSettings(config.checkpointSlots, config.disabledCheckpoint.GetOr(checkpointType), config.numThreads)
  }

  /** The number of `Done` messages. */
  function DoneCount(messages: seq<TaskMessage>): nat {
    if messages == [] then 0
    else DoneCount(messages[..|messages| - 1]) + (if messages[|messages| - 1].Done? then 1 else 0)
  }

  lemma {:induction false} DoneCountAllDone(messages: seq<TaskMessage>)
    requires forall k | 0 <= k < |messages| :: messages[k].Done?
    ensures DoneCount(messages) == |messages|
  {
    if messages != [] {
      DoneCountAllDone(messages[..|messages| - 1]);
    }
  }

  /** What the completion loop of `run` promises: it consumes messages up
      to the first `Error`, failing with it, or up to the `Done` that
      completes the count of started tasks, or until the messages end; no
      message is consumed after one of these. */
  ghost predicate Awaited(totalTasks: nat, messages: seq<TaskMessage>, r: Result<(), IndexerError>, consumed: nat) {
    && consumed <= |messages|
    && (forall k | 0 <= k < consumed - 1 :: messages[k].Done?)
    && (r.Err? <==> consumed > 0 && messages[consumed - 1].Error?)
    && (r.Err? ==> r.error == TaskFailed(messages[consumed - 1].error)
                   && (totalTasks == 0 || consumed <= totalTasks))
    && (r.Ok? ==> forall k | 0 <= k < consumed :: messages[k].Done?)
    && (r.Ok? && consumed < |messages| ==> consumed == totalTasks > 0)
    && (r.Ok? && consumed == |messages| ==> totalTasks == 0 || consumed <= totalTasks)
    && DoneCount(messages[..consumed]) == (if r.Ok? then consumed else consumed - 1)
  }

  /** The completion loop of `run`: `messages` are the syncing tasks' messages in
      arrival order, and their end means every sender is gone. It returns at
      the `Error` message or at the `Done` that completes the count. */
  method AwaitTasks(totalTasks: nat, messages: seq<TaskMessage>) returns (r: Result<(), IndexerError>, consumed: nat)
    ensures Awaited(totalTasks, messages, r, consumed)
  {
    var completedTasks := 0;
    var i := 0;
    while i < |messages|
      invariant i <= |messages| && completedTasks == i
      invariant forall k | 0 <= k < i :: messages[k].Done?
      invariant totalTasks == 0 || i < totalTasks
    {
      var message := messages[i];
      i := i + 1;
      match message
      case Done =>
        completedTasks := completedTasks + 1;
        if completedTasks == totalTasks {
          r, consumed := Ok(()), i;
          DoneCountAllDone(messages[..i]);
          return;
        }
      case Error(error) =>
        r, consumed := Err(TaskFailed(error)), i;
        DoneCountAllDone(messages[..i - 1]);
        assert messages[..i][..i - 1] == messages[..i - 1];
        return;
    }
    r, consumed := Ok(()), i;
    DoneCountAllDone(messages[..i]);
  }

  // Backoff loops

  /** The sync-state fetch of `run`: `getSyncState(k)` answers attempt `k`;
      errors are retried with the capped backoff, and the last one is
      reported once 5000 retries have been made. */
  method FetchSyncState(getSyncState: nat -> Result<Option<SyncState>, ClientError>)
    returns (r: Result<Option<SyncState>, IndexerError>, sleeps: seq<nat>)
    ensures |sleeps| <= MAX_RETRIES && sleeps == Schedule(|sleeps|)
    ensures forall k | 0 <= k < |sleeps| :: getSyncState(k).Err?
    ensures getSyncState(|sleeps|).Ok? ==> r == Ok(getSyncState(|sleeps|).value)
    ensures getSyncState(|sleeps|).Err? ==>
              |sleeps| == MAX_RETRIES && r == Err(BlobscanSyncStateRetrievalError(getSyncState(|sleeps|).error))
  {
    var state;
    state, sleeps := RetryOnError(getSyncState);
    match state
    case Ok(s) => r := Ok(s);
    case Err(e) => r := Err(BlobscanSyncStateRetrievalError(e));
  }

  /** The historical task's loop: `syncRun(k)` is the outcome of attempt `k`
      of `synchronizer.run(start, end)`. Unlike the other loops it makes at
      most 5000 attempts and sleeps only between them. */
  method HistoricalSync(syncRun: nat -> Result<(), AnyError>) returns (message: TaskMessage, attempts: nat, sleeps: seq<nat>)
    ensures 1 <= attempts <= MAX_RETRIES
    ensures forall k | 0 <= k < attempts - 1 :: syncRun(k).Err?
    ensures message.Done? <==> syncRun(attempts - 1).Ok?
    ensures message.Error? ==> attempts == MAX_RETRIES
                               && message.error == HistoricalSyncing(syncRun(attempts - 1).error)
    ensures |sleeps| == attempts - 1 && sleeps == Schedule(|sleeps|)
  {
    var retries := 0;
    var delay := INITIAL_DELAY;
    sleeps := [];
    attempts := 0;
    message := Done;
    while retries < MAX_RETRIES
      invariant retries == attempts <= MAX_RETRIES
      invariant forall k | 0 <= k < attempts :: syncRun(k).Err?
      invariant retries < MAX_RETRIES ==> sleeps == Schedule(retries) && delay == Delay(retries)
      invariant retries == MAX_RETRIES ==>
                  sleeps == Schedule(MAX_RETRIES - 1)
                  && message == Error(HistoricalSyncing(syncRun(MAX_RETRIES - 1).error))
    {
      var result := syncRun(attempts);
      attempts := attempts + 1;
      if result.Err? {
        retries := retries + 1;
        if retries < MAX_RETRIES {
          sleeps := sleeps + [delay];
          delay := delay * 2;
          if delay > MAX_DELAY {
            delay := MAX_DELAY;
          }
        } else {
          message := Error(HistoricalSyncing(result.error));
        }
      } else {
        message := Done;
        break;
      }
    }
  }

  // The chain-reorg walk

  /** The client calls and payload decoders the realtime task uses. */
  datatype RealtimeClients = RealtimeClients(
    parseReorg: string -> Result<ChainReorgEventData, string>,
    parseHead: string -> Result<HeadEventData, string>,
    parseFinalized: string -> Result<FinalizedCheckpointEventData, string>,
    getBlockHeader: H256 -> Result<Option<BlockHeader>, ClientError>,
    handleReorgedSlots: seq<U32> -> Result<nat, ClientError>,
    getBlock: H256 -> Result<Option<Block>, ClientError>,
    updateSyncState: SyncState -> Result<(), ClientError>,
    syncRun: (BlockId, BlockId) -> Result<(), AnyError>)

  type HeaderLookup = H256 -> Result<Option<BlockHeader>, ClientError>

  function PrependAll(prefix: seq<U32>, r: Result<seq<U32>, EventHandlingError>): Result<seq<U32>, EventHandlingError> {
    match r
    case Ok(s) => Ok(prefix + s)
    case Err(e) => Err(e)
  }

  lemma PrependAllEmpty(prefix: seq<U32>)
    ensures PrependAll(prefix, Ok([])) == Ok(prefix)
  {
    assert prefix + [] == prefix;
  }

  lemma PrependAllAssoc(a: seq<U32>, b: seq<U32>, r: Result<seq<U32>, EventHandlingError>)
    ensures PrependAll(a, PrependAll(b, r)) == PrependAll(a + b, r)
  {
    if r.Ok? {
      assert a + (b + r.value) == (a + b) + r.value;
    }
  }

  /** The slots of up to `remaining` blocks from `block` down the parent
      chain, stopping at the first missing header. */
  function Walk(getHeader: HeaderLookup, block: H256, remaining: nat): Result<seq<U32>, EventHandlingError>
    decreases remaining
  {
    if remaining == 0 then Ok([])
    else
      match getHeader(block)
      case Err(e) => Err(BlockRetrievalError(block, e))
      case Ok(None) => Ok([])
      case Ok(Some(h)) => PrependAll([h.header.message.slot], Walk(getHeader, h.header.message.parentRoot, remaining - 1))
  }

  /** The block `k` parent links below `block`, when every header on the way
      is found. */
  ghost function Ancestor(getHeader: HeaderLookup, block: H256, k: nat): Option<H256>
    decreases k
  {
    if k == 0 then Some(block)
    else
      match getHeader(block)
      case Ok(Some(h)) => Ancestor(getHeader, h.header.message.parentRoot, k - 1)
      case _ => None
  }

  ghost function AncestorSlot(getHeader: HeaderLookup, block: H256, k: nat): Option<U32> {
    match Ancestor(getHeader, block, k)
    case None => None
    case Some(a) =>
      match getHeader(a)
      case Ok(Some(h)) => Some(h.header.message.slot)
      case _ => None
  }

  /** The walk collects at most `remaining` slots, slot `i` being that of the
      `i`-th ancestor; it stops early only at a missing header, and fails only
      at a failed lookup of an ancestor. */
  lemma {:induction false} WalkFollowsParents(getHeader: HeaderLookup, block: H256, remaining: nat)
    ensures Walk(getHeader, block, remaining).Ok? ==>
              var s := Walk(getHeader, block, remaining).value;
              |s| <= remaining
              && (forall i | 0 <= i < |s| :: AncestorSlot(getHeader, block, i) == Some(s[i]))
              && (|s| < remaining ==>
                    Ancestor(getHeader, block, |s|).Some?
                    && getHeader(Ancestor(getHeader, block, |s|).value) == Ok(None))
    ensures Walk(getHeader, block, remaining).Err? ==>
              var e := Walk(getHeader, block, remaining).error;
              e.BlockRetrievalError?
              && exists i | 0 <= i < remaining :: Ancestor(getHeader, block, i) == Some(e.hash)
                                                  && getHeader(e.hash) == Err(e.client)
    decreases remaining
  {
    if remaining > 0 {
      match getHeader(block)
      case Err(_) =>
        assert Ancestor(getHeader, block, 0) == Some(block);
      case Ok(None) =>
      case Ok(Some(h)) =>
        var parent := h.header.message.parentRoot;
        WalkFollowsParents(getHeader, parent, remaining - 1);
        forall i | 1 <= i
          ensures Ancestor(getHeader, block, i) == Ancestor(getHeader, parent, i - 1)
          ensures AncestorSlot(getHeader, block, i) == AncestorSlot(getHeader, parent, i - 1)
        {
        }
        if Walk(getHeader, block, remaining).Err? {
          var e := Walk(getHeader, block, remaining).error;
          var i :| 0 <= i < remaining - 1 && Ancestor(getHeader, parent, i) == Some(e.hash)
                   && getHeader(e.hash) == Err(e.client);
          assert Ancestor(getHeader, block, i + 1) == Some(e.hash);
        }
    }
  }

  /** The reorg loop: `for current_depth in 1..=depth`, following
      `parent_root` and stopping at the first missing header. */
  method ReorgWalk(getHeader: HeaderLookup, oldHeadBlock: H256, depth: U32) returns (r: Result<seq<U32>, EventHandlingError>)
    ensures r == Walk(getHeader, oldHeadBlock, depth)
  {
    var current := oldHeadBlock;
    var reorgedSlots: seq<U32> := [];
    assert PrependAll([], Walk(getHeader, current, depth)) == Walk(getHeader, current, depth) by {
      if Walk(getHeader, current, depth).Ok? {
        assert [] + Walk(getHeader, current, depth).value == Walk(getHeader, current, depth).value;
      }
    }
    for currentDepth := 1 to depth + 1
      invariant |reorgedSlots| == currentDepth - 1
      invariant Walk(getHeader, oldHeadBlock, depth)
                == PrependAll(reorgedSlots, Walk(getHeader, current, depth - (currentDepth - 1)))
    {
      var header := getHeader(current);
      match header
      case Err(e) =>
        r := Err(BlockRetrievalError(current, e));
        return;
      case Ok(None) =>
        PrependAllEmpty(reorgedSlots);
        r := Ok(reorgedSlots);
        return;
      case Ok(Some(h)) =>
        PrependAllAssoc(reorgedSlots, [h.header.message.slot], Walk(getHeader, h.header.message.parentRoot, depth - currentDepth));
        reorgedSlots := reorgedSlots + [h.header.message.slot];
        current := h.header.message.parentRoot;
    }
    PrependAllEmpty(reorgedSlots);
    r := Ok(reorgedSlots);
  }

  /** The chain-reorg handler: decode, walk, then mark the slots reorged. */
  function ReorgSpec(c: RealtimeClients, data: string): Result<seq<U32>, EventHandlingError> {
    match c.parseReorg(data)
    case Err(m) => Err(DecodeError(m))
    case Ok(d) =>
      match Walk(c.getBlockHeader, d.oldHeadBlock, d.depth)
      case Err(e) => Err(e)
      case Ok(slots) =>
        match c.handleReorgedSlots(slots)
        case Err(e) => Err(ReorgedHandlingFailure(d.depth, d.oldHeadBlock, e))
        case Ok(_) => Ok(slots)
  }

  /** The `chain_reorg` handler as the source writes it, with its walk as a
      loop; the lemmas are stated on `ReorgSpec`, which it computes. */
  method HandleReorg(c: RealtimeClients, data: string) returns (r: Result<seq<U32>, EventHandlingError>)
    ensures r == ReorgSpec(c, data)
  {
    match c.parseReorg(data)
    case Err(m) =>
      r := Err(DecodeError(m));
    case Ok(d) =>
      var walked := ReorgWalk(c.getBlockHeader, d.oldHeadBlock, d.depth);
      if walked.Err? {
        r := walked;
        return;
      }
      var handled := c.handleReorgedSlots(walked.value);
      if handled.Err? {
        r := Err(ReorgedHandlingFailure(d.depth, d.oldHeadBlock, handled.error));
      } else {
        r := walked;
      }
  }

  // The finalized-checkpoint handler

  function FinalizedSpec(c: RealtimeClients, data: string): Result<U32, EventHandlingError> {
    match c.parseFinalized(data)
    case Err(m) => Err(DecodeError(m))
    case Ok(d) =>
      match c.getBlock(d.block)
      case Err(e) => Err(BlockRetrievalError(d.block, e))
      case Ok(None) => Err(Other(AnyError("Finalized block not found")))
      case Ok(Some(b)) =>
        match b.message.body.executionPayload
        case None => Err(Other(AnyError("Finalized block has no execution payload")))
        case Some(p) =>
          match c.updateSyncState(SyncState(None, None, Some(p.blockNumber)))
          case Err(e) => Err(SyncStateUpdateError(e))
          case Ok(_) => Ok(p.blockNumber)
  }

  /** A finalized checkpoint succeeds iff its block is found with an
      execution payload and storing that block number, and only it, succeeds. */
  lemma FinalizedOutcome(c: RealtimeClients, data: string, n: U32)
    ensures FinalizedSpec(c, data) == Ok(n) <==>
              c.parseFinalized(data).Ok?
              && var hash := c.parseFinalized(data).value.block;
                 c.getBlock(hash).Ok? && c.getBlock(hash).value.Some?
                 && c.getBlock(hash).value.value.message.body.executionPayload.Some?
                 && c.getBlock(hash).value.value.message.body.executionPayload.value.blockNumber == n
                 && c.updateSyncState(SyncState(None, None, Some(n))).Ok?
  {
  }

  // The realtime event loop

  /** A server-sent event, or an error of the stream. */
  datatype Event = Open | Message(event: string, data: string) | StreamFailure(debug: string)

  const REALTIME_TOPICS: seq<Topic> := [ChainReorg, HeadTopic, FinalizedCheckpoint]

  /** The realtime task subscribes to exactly the three events it dispatches on. */
  lemma RealtimeTopicNames()
    ensures |REALTIME_TOPICS| == 3
    ensures TopicName(REALTIME_TOPICS[0]) == "chain_reorg"
    ensures TopicName(REALTIME_TOPICS[1]) == "head"
    ensures TopicName(REALTIME_TOPICS[2]) == "finalized_checkpoint"
  {
  }

  /** The range a head event syncs: from the start block for the first head,
      from the head slot afterwards, up to the slot after the head (wrapping
      as the unchecked `u32` addition does). */
  function HeadRange(isInitial: bool, startBlockId: BlockId, headSlot: U32): (r: (BlockId, BlockId))
    ensures isInitial ==> r.0 == startBlockId
    ensures !isInitial ==> r.0 == Slot(headSlot)
    ensures headSlot < U32_MAX ==> r.1 == Slot(headSlot + 1)
    ensures headSlot == U32_MAX ==> r.1 == Slot(0)
  {
    (if isInitial then startBlockId else Slot(headSlot), Slot((headSlot + 1) % 0x1_0000_0000))
  }

  /** What one message event does: dispatch on the event name. */
  function MessageSpec(c: RealtimeClients, startBlockId: BlockId, isInitial: bool, name: string, data: string): Result<(), RealtimeError> {
    if name == "chain_reorg" then
      match ReorgSpec(c, data)
      case Err(e) => Err(BeaconEventProcessingError(e))
      case Ok(_) => Ok(())
    else if name == "head" then
      match c.parseHead(data)
      case Err(m) => Err(BeaconEventProcessingError(DecodeError(m)))
      case Ok(h) =>
        var range := HeadRange(isInitial, startBlockId, h.slot);
        match c.syncRun(range.0, range.1)
        case Err(e) => Err(BeaconEventProcessingError(SynchronizerFailure(e)))
        case Ok(_) => Ok(())
    else if name == "finalized_checkpoint" then
      match FinalizedSpec(c, data)
      case Err(e) => Err(BeaconEventProcessingError(e))
      case Ok(_) => Ok(())
    else Err(UnexpectedBeaconEvent(name))
  }

  /** The handler of one message event; `head` is the decoded slot of a head
      event, whose range is passed to the synchronizer. It follows the
      source's dispatch statement by statement and computes `MessageSpec`,
      the function the event loop's lemmas are stated on. */
  method HandleMessage(c: RealtimeClients, startBlockId: BlockId, isInitial: bool, name: string, data: string)
    returns (r: Result<(), RealtimeError>, head: Option<U32>)
    ensures r == MessageSpec(c, startBlockId, isInitial, name, data)
    ensures head.Some? <==> name == "head" && c.parseHead(data).Ok?
    ensures head.Some? ==> head.value == c.parseHead(data).value.slot
  {
    head := None;
    if name == "chain_reorg" {
      var handled := HandleReorg(c, data);
      r := if handled.Err? then Err(BeaconEventProcessingError(handled.error)) else Ok(());
    } else if name == "head" {
      var decoded := c.parseHead(data);
      if decoded.Err? {
        r := Err(BeaconEventProcessingError(DecodeError(decoded.error)));
        return;
      }
      head := Some(decoded.value.slot);
      var range := HeadRange(isInitial, startBlockId, decoded.value.slot);
      var synced := c.syncRun(range.0, range.1);
      r := if synced.Err? then Err(BeaconEventProcessingError(SynchronizerFailure(synced.error))) else Ok(());
    } else if name == "finalized_checkpoint" {
      var finalized := FinalizedSpec(c, data);
      r := if finalized.Err? then Err(BeaconEventProcessingError(finalized.error)) else Ok(());
    } else {
      r := Err(UnexpectedBeaconEvent(name));
    }
  }

  datatype RealtimeState = RealtimeState(isInitialSyncToHead: bool, retries: nat)

  datatype StepResult = Continue(state: RealtimeState) | Stop(error: RealtimeError)

  /** What one event does to the loop. */
  function Step(c: RealtimeClients, startBlockId: BlockId, st: RealtimeState, event: Event): StepResult
  {
    match event
    case Open => Continue(st)
    case StreamFailure(d) =>
      if st.retries < MAX_RETRIES then Continue(st.(retries := st.retries + 1))
      else Stop(EventSourceError(d))
    case Message(name, data) =>
      match MessageSpec(c, startBlockId, st.isInitialSyncToHead, name, data)
      case Err(e) => Stop(e)
      case Ok(_) => Continue(st.(isInitialSyncToHead := st.isInitialSyncToHead && name != "head"))
  }

  /** The outcome of the event loop from state `st` over `events`. */
  function RealtimeSpec(c: RealtimeClients, startBlockId: BlockId, st: RealtimeState, events: seq<Event>): Result<(), RealtimeError>
    decreases |events|
  {
    if events == [] then Ok(())
    else
      match Step(c, startBlockId, st, events[0])
      case Stop(e) => Err(e)
      case Continue(next) => RealtimeSpec(c, startBlockId, next, events[1..])
  }

  /** One step of the event loop, unfolded. */
  lemma RealtimeSpecStep(c: RealtimeClients, startBlockId: BlockId, st: RealtimeState, events: seq<Event>, i: nat)
    requires i < |events|
    ensures RealtimeSpec(c, startBlockId, st, events[i..])
            == match Step(c, startBlockId, st, events[i])
               case Stop(e) => Err(e)
               case Continue(next) => RealtimeSpec(c, startBlockId, next, events[i + 1..])
  {
    assert events[i..][0] == events[i] && events[i..][1..] == events[i + 1..];
  }

  /** The number of stream errors. */
  function StreamFailures(events: seq<Event>): nat {
    if events == [] then 0
    else StreamFailures(events[..|events| - 1]) + (if events[|events| - 1].StreamFailure? then 1 else 0)
  }

  lemma StreamFailuresNext(events: seq<Event>, i: nat)
    requires i < |events|
    ensures StreamFailures(events[..i + 1])
            == StreamFailures(events[..i]) + (if events[i].StreamFailure? then 1 else 0)
  {
    assert events[..i + 1][..i] == events[..i];
  }

  /** One turn of the event loop: a stream error is counted (and fails
      once 5000 have been retried), a message is handled. */
  method HandleEvent(c: RealtimeClients, startBlockId: BlockId, st: RealtimeState, event: Event)
    returns (res: StepResult, head: Option<U32>)
    ensures res == Step(c, startBlockId, st, event)
    ensures head.Some? <==> event.Message? && event.event == "head" && c.parseHead(event.data).Ok?
    ensures res.Continue? ==>
              res.state.retries == st.retries + (if event.StreamFailure? then 1 else 0)
              && (res.state.isInitialSyncToHead <==> st.isInitialSyncToHead && head.None?)
    ensures res.Stop? && res.error.EventSourceError? <==> event.StreamFailure? && st.retries >= MAX_RETRIES
  {
    head := None;
    match event
    case Open =>
      res := Continue(st);
    case StreamFailure(d) =>
      if st.retries < MAX_RETRIES {
        res := Continue(st.(retries := st.retries + 1));
      } else {
        res := Stop(EventSourceError(d));
      }
    case Message(name, data) =>
      var handled;
      handled, head := HandleMessage(c, startBlockId, st.isInitialSyncToHead, name, data);
      if handled.Err? {
        res := Stop(handled.error);
      } else {
        res := Continue(st.(isInitialSyncToHead := st.isInitialSyncToHead && name != "head"));
      }
  }

  /** The head syncs of the realtime loop, in order: the first from the start
      block, the others from their head slot, each up to the slot after it. */
  predicate HeadSyncs(startBlockId: BlockId, syncs: seq<(BlockId, BlockId)>) {
    forall k | 0 <= k < |syncs| ::
      (k == 0 ==> syncs[k].0 == startBlockId)
      && (k > 0 ==> syncs[k].0.Slot? && syncs[k] == HeadRange(false, startBlockId, syncs[k].0.slot))
  }

  lemma HeadSyncsAppend(startBlockId: BlockId, syncs: seq<(BlockId, BlockId)>, isInitial: bool, headSlot: U32)
    requires HeadSyncs(startBlockId, syncs)
    requires isInitial <==> |syncs| == 0
    ensures HeadSyncs(startBlockId, syncs + [HeadRange(isInitial, startBlockId, headSlot)])
  {
  }

  /** What the realtime loop keeps track of besides its state: the head syncs
      so far (none until the first head), and the waits after the stream
      errors counted in `st.retries` together with the next wait. */
  predicate Tracked(startBlockId: BlockId, st: RealtimeState, syncs: seq<(BlockId, BlockId)>,
                    sleeps: seq<nat>, delay: nat) {
    && (st.isInitialSyncToHead <==> |syncs| == 0)
    && HeadSyncs(startBlockId, syncs)
    && st.retries == |sleeps| <= MAX_RETRIES
    && sleeps == Schedule(st.retries)
    && delay == Delay(st.retries)
  }

  /** One turn of the realtime loop: handle the event, record a head sync,
      and wait after a retried stream error, doubling the wait up to the cap. */
  method Turn(c: RealtimeClients, startBlockId: BlockId, st: RealtimeState, event: Event,
              syncs: seq<(BlockId, BlockId)>, sleeps: seq<nat>, delay: nat)
    returns (res: StepResult, syncs': seq<(BlockId, BlockId)>, sleeps': seq<nat>, delay': nat)
    requires Tracked(startBlockId, st, syncs, sleeps, delay)
    ensures res == Step(c, startBlockId, st, event)
    ensures |syncs'| <= |syncs| + 1
    ensures res.Continue? ==>
              Tracked(startBlockId, res.state, syncs', sleeps', delay')
              && res.state.retries == st.retries + (if event.StreamFailure? then 1 else 0)
    ensures res.Stop? ==>
              HeadSyncs(startBlockId, syncs') && sleeps' == sleeps
              && (res.error.EventSourceError? <==> event.StreamFailure?)
  {
    var head;
    res, head := HandleEvent(c, startBlockId, st, event);
    syncs', sleeps', delay' := syncs, sleeps, delay;
    if head.Some? {
      HeadSyncsAppend(startBlockId, syncs, st.isInitialSyncToHead, head.value);
      syncs' := syncs + [HeadRange(st.isInitialSyncToHead, startBlockId, head.value)];
    }
    if res.Continue? && event.StreamFailure? {
      sleeps' := sleeps + [delay];
      delay' := delay * 2;
      if delay' > MAX_DELAY {
        delay' := MAX_DELAY;
      }
    }
  }

  /** The event loop of the realtime task: handle events until the stream
      ends or a handler fails. `syncs` are the ranges of the head events
      handled, in order; `sleeps` are the waits after stream errors, whose
      count is never reset. */
  method RealtimeLoop(c: RealtimeClients, startBlockId: BlockId, events: seq<Event>)
    returns (r: Result<(), RealtimeError>, processed: nat, syncs: seq<(BlockId, BlockId)>, sleeps: seq<nat>)
    ensures r == RealtimeSpec(c, startBlockId, RealtimeState(true, 0), events)
    ensures processed <= |events| && (r.Ok? ==> processed == |events|)
    ensures |sleeps| <= MAX_RETRIES && sleeps == Schedule(|sleeps|)
    ensures |sleeps| + (if r.Err? && r.error.EventSourceError? then 1 else 0) == StreamFailures(events[..processed])
    ensures |syncs| <= processed
    ensures HeadSyncs(startBlockId, syncs)
  {
    processed := 0;
    syncs := [];
    sleeps := [];
    var st := RealtimeState(true, 0);
    var delay := INITIAL_DELAY;
    while processed < |events|
      invariant processed <= |events|
      invariant RealtimeSpec(c, startBlockId, RealtimeState(true, 0), events)
                == RealtimeSpec(c, startBlockId, st, events[processed..])
      invariant Tracked(startBlockId, st, syncs, sleeps, delay)
      invariant |syncs| <= processed
      invariant st.retries == StreamFailures(events[..processed])
    {
      var event := events[processed];
      RealtimeSpecStep(c, startBlockId, st, events, processed);
      StreamFailuresNext(events, processed);
      processed := processed + 1;
      var res;
      res, syncs, sleeps, delay := Turn(c, startBlockId, st, event, syncs, sleeps, delay);
      if res.Stop? {
        r := Err(res.error);
        return;
      }
      st := res.state;
    }
    r := Ok(());
  }

  /** The realtime task's body: subscribe to the three topics, then run the
      event loop. */
  method RealtimeSync(c: RealtimeClients, subscribed: Result<(), ClientError>, startBlockId: BlockId, events: seq<Event>)
    returns (r: Result<(), RealtimeError>, processed: nat, syncs: seq<(BlockId, BlockId)>, sleeps: seq<nat>)
    ensures subscribed.Err? ==> r == Err(BeaconEventsSubscriptionError(subscribed.error)) && processed == 0
    ensures subscribed.Ok? ==> r == RealtimeSpec(c, startBlockId, RealtimeState(true, 0), events)
    ensures processed <= |events| && (r.Ok? ==> processed == |events|)
    ensures |sleeps| <= MAX_RETRIES && sleeps == Schedule(|sleeps|)
    ensures |sleeps| + (if r.Err? && r.error.EventSourceError? then 1 else 0) == StreamFailures(events[..processed])
    ensures |syncs| <= processed
    ensures HeadSyncs(startBlockId, syncs)
  {
    if subscribed.Err? {
      r, processed, syncs, sleeps := Err(BeaconEventsSubscriptionError(subscribed.error)), 0, [], [];
      return;
    }
    r, processed, syncs, sleeps := RealtimeLoop(c, startBlockId, events);
  }

  /** The message the realtime task sends when its body ends. */
  function RealtimeMessage(r: Result<(), RealtimeError>): (m: TaskMessage)
    ensures m.Done? <==> r.Ok?
  {
    match r
    case Ok(_) => Done
    case Err(e) => Error(Realtime(e))
  }

  // `run`

  /** `run`: fetch the sync state, choose the start blocks, start the syncing tasks
      and wait for them. `getSyncState(k)` answers attempt `k` of the fetch,
      `messages` are the syncing tasks' messages in arrival order. `retries`
      counts the failed fetches before the last one, so the fetch makes
      `retries + 1` calls. */
  method Run(config: IndexerConfig, getSyncState: nat -> Result<Option<SyncState>, ClientError>,
             startBlockId: Option<BlockId>, endBlockId: Option<BlockId>, messages: seq<TaskMessage>)
    returns (r: Result<(), IndexerError>, retries: nat, plan: Option<Plan>, consumed: nat)
    ensures retries <= MAX_RETRIES && forall k | 0 <= k < retries :: getSyncState(k).Err?
    ensures plan.None? <==> getSyncState(retries).Err?
    ensures plan.None? ==>
              retries == MAX_RETRIES && r == Err(BlobscanSyncStateRetrievalError(getSyncState(retries).error))
    ensures plan.Some? ==>
              var state := getSyncState(retries).value;
              var lower := LowerStartBlock(startBlockId, state);
              && plan.value.realtime == endBlockId.None?
              && plan.value.realtimeStart == UpperStartBlock(startBlockId, state)
              && plan.value.historicalStart == lower
              && plan.value.endBlockId == endBlockId.GetOr(Slot(config.dencunForkSlot))
              && (plan.value.historical <==>
                    !config.disableSyncHistorical && !HistoricalSyncCompleted(lower, config.dencunForkSlot))
              && plan.value.totalTasks == (if plan.value.realtime then 1 else 0) + (if plan.value.historical then 1 else 0)
              && Awaited(plan.value.totalTasks, messages, r, consumed)
  {
    var fetched, sleeps := FetchSyncState(getSyncState);
    retries := |sleeps|;
    consumed := 0;
    if fetched.Err? {
      r, plan := Err(fetched.error), None;
      return;
    }
    var state := fetched.value;
    var lower := LowerStartBlock(startBlockId, state);
    var upper := UpperStartBlock(startBlockId, state);
    var p := PlanTasks(config, lower, upper, endBlockId);
    plan := Some(p);
    r, consumed := AwaitTasks(p.totalTasks, messages);
  }

  /** The historical task is skipped exactly when it is disabled or the
      lower start block is already below the Dencun fork slot; with no end
      block only the realtime task is added. */
  lemma TaskCount(config: IndexerConfig, lower: BlockId, endBlockId: Option<BlockId>, p: Plan)
    requires p.realtime <==> endBlockId.None?
    requires p.historical <==> !config.disableSyncHistorical && !HistoricalSyncCompleted(lower, config.dencunForkSlot)
    requires p.totalTasks == (if p.realtime then 1 else 0) + (if p.historical then 1 else 0)
    ensures p.totalTasks == 0 <==> endBlockId.Some? && (config.disableSyncHistorical
                                                        || (lower.Slot? && lower.slot < config.dencunForkSlot))
    ensures p.totalTasks <= 2
  {
  }
}
