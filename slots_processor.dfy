/** The slots processor: it walks a range of slots forwards or backwards and,
    for each slot, fetches the beacon block, the execution block and the
    proposer's validator, builds the blobscan entities and indexes them,
    retrying each client call with the capped backoff. Every client is a
    function of its request and, where the processor retries, of the attempt
    number; a call's answer on attempt `k` is the function's value at `k`. */
module SlotsProcessor {
  import opened Common
  import opened Hex
  import opened BeaconTypes
  import opened Backoff
  import opened BlobscanEntities
  import Beacon
  import E = SlotsProcessorErrors

  /** The arguments of `blobscan_client.index`. */
  datatype IndexRequest = IndexRequest(block: BlockEntity, transactions: seq<TransactionEntity>, blobs: seq<BlobEntity>)

  datatype Clients = Clients(
    getBlock: (U32, nat) -> Result<Option<Block>, ClientError>,
    getExecutionBlock: (H256, nat) -> Result<Option<ExecutionBlock>, ProviderError>,
    getValidators: (U64, nat) -> Result<Option<seq<Beacon.ValidatorContainer>>, ClientError>,
    txVersionedHashes: ExecutionBlock -> Result<seq<TxVersionedHashes>, AnyError>,
    toTransaction: (H256, ExecutionBlock) -> Result<TransactionEntity, AnyError>,
    toBlock: (ExecutionBlock, U32, string) -> Result<BlockEntity, AnyError>,
    versionedHashBlobs: seq<Blob> -> Result<map<H256, Blob>, AnyError>,
    index: (IndexRequest, nat) -> Result<(), ClientError>)

  /** The block's commitments decode as hex (the blobs are built with `unwrap`). */
  predicate HexBlock(b: Block) {
    b.message.body.blobKzgCommitments.Some? ==> AllHexCommitments(b.message.body.blobKzgCommitments.value)
  }

  /** The answers on which the source would panic do not occur: a found
      execution block (`unwrap`), a non-empty validator list (`containers[0]`)
      and hex commitments. */
  ghost predicate NoPanics(c: Clients) {
    (forall h: H256, k: nat :: c.getExecutionBlock(h, k).Ok? ==> c.getExecutionBlock(h, k).value.Some?)
    && (forall i: U64, k: nat :: c.getValidators(i, k).Ok? && c.getValidators(i, k).value.Some? ==>
          |c.getValidators(i, k).value.value| > 0)
    && (forall s: U32, k: nat :: c.getBlock(s, k).Ok? && c.getBlock(s, k).value.Some? ==>
          HexBlock(c.getBlock(s, k).value.value))
  }

  function BlockCall(c: Clients, slot: U32): nat -> Result<Option<Block>, ClientError> {
    (k: nat) => c.getBlock(slot, k)
  }

  function ExecutionCall(c: Clients, hash: H256): nat -> Result<Option<ExecutionBlock>, ProviderError> {
    (k: nat) => c.getExecutionBlock(hash, k)
  }

  function ValidatorCall(c: Clients, index: U64): nat -> Result<Option<seq<Beacon.ValidatorContainer>>, ClientError> {
    (k: nat) => c.getValidators(index, k)
  }

  function IndexCall(c: Clients, req: IndexRequest): nat -> Result<(), ClientError> {
    (k: nat) => c.index(req, k)
  }

  function TxConverter(c: Clients, eb: ExecutionBlock): H256 -> Result<TransactionEntity, AnyError> {
    (tx: H256) => c.toTransaction(tx, eb)
  }

  /** The answer a retry loop ends with. */
  function Retried<R>(call: nat -> R, retryable: R -> bool): R {
    call(RetryCount(call, retryable, MAX_RETRIES, 0))
  }

  const VALIDATOR_RETRIES_ERROR := "Failed to get validator after retries"

  /** What one slot comes to: its result, and the request sent to `index`
      when the ladder gets that far. */
  datatype SlotResult = SlotResult(result: Result<(), E.SlotProcessingError>, request: Option<IndexRequest>)

  function Skip(): SlotResult {
    SlotResult(Ok(()), None)
  }

  function Fail(e: E.SlotProcessingError): SlotResult {
    SlotResult(Err(e), None)
  }

  function Commitments(b: Block): seq<string> {
    b.message.body.blobKzgCommitments.GetOr([])
  }

  /** The blob entities: none without commitments, else one per versioned hash. */
  function BlobEntities(c: Clients, commitments: seq<string>, mapping: seq<TxVersionedHashes>): Result<seq<BlobEntity>, AnyError>
    requires AllHexCommitments(commitments)
  {
    if commitments == [] then Ok([])
    else
      match c.versionedHashBlobs(CommitmentBlobs(commitments))
      case Err(e) => Err(e)
      case Ok(blobs) => EntitiesFor(Refs(mapping), blobs)
  }

  /** The ladder from the fetched execution block on. */
  function ExecutionSpec(c: Clients, slot: U32, proposer: U64, commitments: seq<string>, eb: ExecutionBlock): SlotResult
    requires NoPanics(c) && AllHexCommitments(commitments)
  {
    match c.txVersionedHashes(eb)
    case Err(e) => Fail(E.Other(e))
    case Ok(mapping) =>
      match ConvertAll(eb.transactions, TxConverter(c, eb))
      case Err(e) => Fail(E.Other(e))
      case Ok(txs) =>
        if txs == [] then Skip()
        else
          match Retried(ValidatorCall(c, proposer), IsOkNone)
          case Err(e) => Fail(E.ClientError(e))
          case Ok(None) => Fail(E.CustomError(VALIDATOR_RETRIES_ERROR))
          case Ok(Some(containers)) =>
            IndexSpec(c, slot, commitments, eb, mapping, txs, containers[0].validator.pubkey)
  }

  /** The ladder from the proposer's public key on. */
  function IndexSpec(c: Clients, slot: U32, commitments: seq<string>, eb: ExecutionBlock,
                     mapping: seq<TxVersionedHashes>, txs: seq<TransactionEntity>, pubkey: string): SlotResult
    requires AllHexCommitments(commitments)
  {
    match c.toBlock(eb, slot, pubkey)
    case Err(e) => Fail(E.Other(e))
    case Ok(blockEntity) =>
      match BlobEntities(c, commitments, mapping)
      case Err(e) => Fail(E.Other(e))
      case Ok(blobs) =>
        var req := IndexRequest(blockEntity, txs, blobs);
        match Retried(IndexCall(c, req), IsErr)
        case Ok(_) => SlotResult(Ok(()), Some(req))
        case Err(e) => SlotResult(Err(E.ClientError(e)), Some(req))
  }

  /** The ladder from the fetched beacon block on. */
  function BlockSpec(c: Clients, slot: U32, block: Block): SlotResult
    requires NoPanics(c) && HexBlock(block)
  {
    match block.message.body.executionPayload
    case None => Skip()
    case Some(payload) =>
      match Retried(ExecutionCall(c, payload.blockHash), IsErr)
      case Err(e) => Fail(E.Provider(e))
      case Ok(eb) =>
        ExecutionSpec(c, slot, block.message.proposerIndex, Commitments(block), eb.value)
  }

  /** What `process_slot` does with `slot`. */
  function ProcessSlotSpec(c: Clients, slot: U32): SlotResult
    requires NoPanics(c)
  {
    if slot == 0 then Skip()
    else
      match Retried(BlockCall(c, slot), IsErr)
      case Err(e) => Fail(E.ClientError(e))
      case Ok(None) => Skip()
      case Ok(Some(block)) => BlockSpec(c, slot, block)
  }

  predicate Bounded(sleeps: seq<nat>) {
    forall i | 0 <= i < |sleeps| :: INITIAL_DELAY <= sleeps[i] <= MAX_DELAY
  }

  /** The waits of a retry loop are bounded. */
  lemma RetrySleepsBounded(sleeps: seq<nat>)
    requires sleeps == Schedule(|sleeps|)
    ensures Bounded(sleeps)
  {
    ScheduleBounds(|sleeps|);
  }

  lemma BoundedAppend(a: seq<nat>, b: seq<nat>)
    requires Bounded(a) && Bounded(b)
    ensures Bounded(a + b)
  {
    forall i | 0 <= i < |a + b|
      ensures INITIAL_DELAY <= (a + b)[i] <= MAX_DELAY
    {
      if i >= |a| {
        assert (a + b)[i] == b[i - |a|];
      }
    }
  }

  method BuildBlobEntities(c: Clients, commitments: seq<string>, mapping: seq<TxVersionedHashes>)
    returns (r: Result<seq<BlobEntity>, AnyError>)
    requires AllHexCommitments(commitments)
    ensures r == BlobEntities(c, commitments, mapping)
  {
    r := Ok([]);
    if commitments != [] {
      var response := FromCommitments(commitments);
      match c.versionedHashBlobs(response.data) {
        case Err(e) => r := Err(e);
        case Ok(byHash) => r := CollectBlobEntities(mapping, byHash);
      }
    }
  }

  method IndexSlot(c: Clients, slot: U32, commitments: seq<string>, eb: ExecutionBlock,
                   mapping: seq<TxVersionedHashes>, txs: seq<TransactionEntity>, pubkey: string)
    returns (r: SlotResult, sleeps: seq<nat>)
    requires AllHexCommitments(commitments)
    ensures r == IndexSpec(c, slot, commitments, eb, mapping, txs, pubkey)
    ensures Bounded(sleeps) && |sleeps| <= MAX_RETRIES
  {
    sleeps := [];
    var blockEntity;
    match c.toBlock(eb, slot, pubkey) {
      case Err(e) => r := Fail(E.Other(e)); return;
      case Ok(b) => blockEntity := b;
    }
    var blobs;
    var built := BuildBlobEntities(c, commitments, mapping);
    match built {
      case Err(e) => r := Fail(E.Other(e)); return;
      case Ok(es) => blobs := es;
    }
    var req := IndexRequest(blockEntity, txs, blobs);
    var indexed;
    indexed, sleeps := RetryOnError(IndexCall(c, req));
    RetrySleepsBounded(sleeps);
    match indexed {
      case Ok(_) => r := SlotResult(Ok(()), Some(req));
      case Err(e) => r := SlotResult(Err(E.ClientError(e)), Some(req));
    }
  }

  method ProcessExecutionBlock(c: Clients, slot: U32, proposer: U64, commitments: seq<string>, eb: ExecutionBlock)
    returns (r: SlotResult, sleeps: seq<nat>)
    requires NoPanics(c) && AllHexCommitments(commitments)
    ensures r == ExecutionSpec(c, slot, proposer, commitments, eb)
    ensures r == Skip() <==> c.txVersionedHashes(eb).Ok? && eb.transactions == []
    ensures Bounded(sleeps) && |sleeps| <= 2 * MAX_RETRIES
  {
    ExecutionSkips(c, slot, proposer, commitments, eb);
    sleeps := [];
    var mapping;
    match c.txVersionedHashes(eb) {
      case Err(e) => r := Fail(E.Other(e)); return;
      case Ok(m) => mapping := m;
    }
    var txs;
    match ConvertAll(eb.transactions, TxConverter(c, eb)) {
      case Err(e) => r := Fail(E.Other(e)); return;
      case Ok(t) => txs := t;
    }
    if txs == [] {
      r := Skip();
      return;
    }
    var validators;
    validators, sleeps := RetryOnNone(ValidatorCall(c, proposer));
    RetrySleepsBounded(sleeps);
    match validators {
      case Err(e) => r := Fail(E.ClientError(e));
      case Ok(None) => r := Fail(E.CustomError(VALIDATOR_RETRIES_ERROR));
      case Ok(Some(containers)) =>
        var pubkey := containers[0].validator.pubkey;
        var s2;
        r, s2 := IndexSlot(c, slot, commitments, eb, mapping, txs, pubkey);
        BoundedAppend(sleeps, s2);
        sleeps := sleeps + s2;
    }
  }

  method ProcessBlock(c: Clients, slot: U32, block: Block) returns (r: SlotResult, sleeps: seq<nat>)
    requires NoPanics(c) && HexBlock(block)
    ensures r == BlockSpec(c, slot, block)
    ensures r == Skip() <==>
              block.message.body.executionPayload.None?
              || var fetched := Retried(ExecutionCall(c, block.message.body.executionPayload.value.blockHash), IsErr);
                 fetched.Ok? && c.txVersionedHashes(fetched.value.value).Ok? && fetched.value.value.transactions == []
    ensures Bounded(sleeps) && |sleeps| <= 3 * MAX_RETRIES
  {
    BlockSkips(c, slot, block);
    sleeps := [];
    var payload;
    match block.message.body.executionPayload {
      case None => r := Skip(); return;
      case Some(p) => payload := p;
    }
    var commitments := Commitments(block);
    var executionBlock, s1 := RetryOnError(ExecutionCall(c, payload.blockHash));
    RetrySleepsBounded(s1);
    sleeps := s1;
    match executionBlock {
      case Err(e) => r := Fail(E.Provider(e)); return;
      case Ok(eb) =>
        var s2;
        r, s2 := ProcessExecutionBlock(c, slot, block.message.proposerIndex, commitments, eb.value);
        BoundedAppend(sleeps, s2);
        sleeps := sleeps + s2;
    }
  }

  /** `process_slot`. */
  method ProcessSlot(c: Clients, slot: U32) returns (r: SlotResult, sleeps: seq<nat>)
    requires NoPanics(c)
    ensures r == ProcessSlotSpec(c, slot)
    ensures r == Skip() <==> SkipCase(c, slot)
    ensures slot == 0 ==> sleeps == []
    ensures Bounded(sleeps) && |sleeps| <= 4 * MAX_RETRIES
  {
    SkipCases(c, slot);
    sleeps := [];
    if slot == 0 {
      r := Skip();
      return;
    }
    var beaconBlock, s1 := RetryOnError(BlockCall(c, slot));
    RetrySleepsBounded(s1);
    sleeps := s1;
    match beaconBlock {
      case Err(e) => r := Fail(E.ClientError(e)); return;
      case Ok(None) => r := Skip(); return;
      case Ok(Some(block)) =>
        var s2;
        r, s2 := ProcessBlock(c, slot, block);
        BoundedAppend(sleeps, s2);
        sleeps := sleeps + s2;
    }
  }

  /** From the execution block on, a slot is skipped exactly when the block
      has no transactions (and its versioned-hash mapping is built). */
  lemma ExecutionSkips(c: Clients, slot: U32, proposer: U64, commitments: seq<string>, eb: ExecutionBlock)
    requires NoPanics(c) && AllHexCommitments(commitments)
    ensures ExecutionSpec(c, slot, proposer, commitments, eb) == Skip() <==>
              c.txVersionedHashes(eb).Ok? && eb.transactions == []
  {
    ConvertAllOk(eb.transactions, TxConverter(c, eb));
  }

  /** A slot reaches `index` only after the transactions convert, there is
      at least one, and the validator lookup finds the proposer. */
  lemma ExecutionIndexed(c: Clients, slot: U32, proposer: U64, commitments: seq<string>, eb: ExecutionBlock)
    requires NoPanics(c) && AllHexCommitments(commitments)
    ensures ExecutionSpec(c, slot, proposer, commitments, eb).request.Some? ==>
              && c.txVersionedHashes(eb).Ok?
              && ConvertAll(eb.transactions, TxConverter(c, eb)).Ok?
              && |ConvertAll(eb.transactions, TxConverter(c, eb)).value| == |eb.transactions| > 0
              && var found := Retried(ValidatorCall(c, proposer), IsOkNone);
                 found.Ok? && found.value.Some? && |found.value.value| > 0
                 && ExecutionSpec(c, slot, proposer, commitments, eb)
                    == IndexSpec(c, slot, commitments, eb, c.txVersionedHashes(eb).value,
                                 ConvertAll(eb.transactions, TxConverter(c, eb)).value,
                                 found.value.value[0].validator.pubkey)
  {
    ConvertAllOk(eb.transactions, TxConverter(c, eb));
  }

  /** From the beacon block on, a slot is skipped exactly when the block has
      no execution payload, or its execution block is skipped as above. */
  lemma BlockSkips(c: Clients, slot: U32, block: Block)
    requires NoPanics(c) && HexBlock(block)
    ensures BlockSpec(c, slot, block) == Skip() <==>
              block.message.body.executionPayload.None?
              || var fetched := Retried(ExecutionCall(c, block.message.body.executionPayload.value.blockHash), IsErr);
                 fetched.Ok? && c.txVersionedHashes(fetched.value.value).Ok? && fetched.value.value.transactions == []
  {
    if block.message.body.executionPayload.Some? {
      var fetched := Retried(ExecutionCall(c, block.message.body.executionPayload.value.blockHash), IsErr);
      if fetched.Ok? {
        ExecutionSkips(c, slot, block.message.proposerIndex, Commitments(block), fetched.value.value);
      }
    }
  }

  /** The four cases in which `process_slot` returns `Ok` without indexing:
      slot 0, no beacon block, no execution payload, or an execution block
      without transactions (its versioned-hash mapping built). */
  ghost predicate SkipCase(c: Clients, slot: U32) {
    slot == 0
    || var answer := Retried(BlockCall(c, slot), IsErr);
       answer == Ok(None)
       || (answer.Ok? && answer.value.Some?
           && var block := answer.value.value;
              block.message.body.executionPayload.None?
              || var fetched := Retried(ExecutionCall(c, block.message.body.executionPayload.value.blockHash), IsErr);
                 fetched.Ok? && fetched.value.Some? && c.txVersionedHashes(fetched.value.value).Ok?
                 && fetched.value.value.transactions == [])
  }

  /** `process_slot` skips a slot, returning `Ok` with nothing indexed,
      exactly when the slot is 0, the beacon block is missing, it has no
      execution payload, or its execution block has no transactions. */
  lemma SkipCases(c: Clients, slot: U32)
    requires NoPanics(c)
    ensures ProcessSlotSpec(c, slot) == Skip() <==> SkipCase(c, slot)
  {
    if slot != 0 {
      var answer := Retried(BlockCall(c, slot), IsErr);
      if answer.Ok? && answer.value.Some? {
        var k := RetryCount(BlockCall(c, slot), IsErr, MAX_RETRIES, 0);
        assert answer == c.getBlock(slot, k);
        BlockSkips(c, slot, answer.value.value);
      }
    }
  }

  /** A slot reaches `index` only when it is not 0, its beacon block is found
      with an execution payload, the execution block is fetched, its
      transactions convert and are not empty, and the proposer's validator is
      found; the request is then the one `IndexSpec` builds from them. */
  lemma IndexedOnlyAfterChecks(c: Clients, slot: U32)
    requires NoPanics(c)
    requires ProcessSlotSpec(c, slot).request.Some?
    ensures slot != 0
    ensures var answer := Retried(BlockCall(c, slot), IsErr);
            answer.Ok? && answer.value.Some?
            && var block := answer.value.value;
               block.message.body.executionPayload.Some?
               && var fetched := Retried(ExecutionCall(c, block.message.body.executionPayload.value.blockHash), IsErr);
                  fetched.Ok?
                  && var eb := fetched.value.value;
                     c.txVersionedHashes(eb).Ok?
                     && ConvertAll(eb.transactions, TxConverter(c, eb)).Ok?
                     && eb.transactions != []
                     && var found := Retried(ValidatorCall(c, block.message.proposerIndex), IsOkNone);
                        found.Ok? && found.value.Some? && |found.value.value| > 0
                        && ProcessSlotSpec(c, slot)
                           == IndexSpec(c, slot, Commitments(block), eb, c.txVersionedHashes(eb).value,
                                        ConvertAll(eb.transactions, TxConverter(c, eb)).value,
                                        found.value.value[0].validator.pubkey)
  {
    var answer := Retried(BlockCall(c, slot), IsErr);
    var k := RetryCount(BlockCall(c, slot), IsErr, MAX_RETRIES, 0);
    assert answer == c.getBlock(slot, k);
    var block := answer.value.value;
    var fetched := Retried(ExecutionCall(c, block.message.body.executionPayload.value.blockHash), IsErr);
    ExecutionIndexed(c, slot, block.message.proposerIndex, Commitments(block), fetched.value.value);
  }

  /** The validator lookup fails a slot exactly when the earlier stages
      passed and all 5001 lookups answered `None`. */
  lemma ValidatorGiveUp(c: Clients, slot: U32, proposer: U64, commitments: seq<string>, eb: ExecutionBlock)
    requires NoPanics(c) && AllHexCommitments(commitments)
    ensures ExecutionSpec(c, slot, proposer, commitments, eb) == Fail(E.CustomError(VALIDATOR_RETRIES_ERROR))
            <==> c.txVersionedHashes(eb).Ok?
                 && ConvertAll(eb.transactions, TxConverter(c, eb)).Ok?
                 && |eb.transactions| > 0
                 && forall k | 0 <= k <= MAX_RETRIES :: c.getValidators(proposer, k) == Ok(None)
  {
    ConvertAllOk(eb.transactions, TxConverter(c, eb));
    var call := ValidatorCall(c, proposer);
    RetryCountOutcome(call, IsOkNone, MAX_RETRIES);
    var n := RetryCount(call, IsOkNone, MAX_RETRIES, 0);
    assert Retried(call, IsOkNone) == call(n);
    if call(n) == Ok(None) {
      forall k | 0 <= k <= MAX_RETRIES
        ensures c.getValidators(proposer, k) == Ok(None)
      {
        assert IsOkNone(call(k));
      }
    }
    if forall k | 0 <= k <= MAX_RETRIES :: c.getValidators(proposer, k) == Ok(None) {
      assert call(n) == Ok(None);
    }
  }

  /** When a request reaches `index`, the slot succeeds exactly when one of
      the 5001 attempts does. */
  lemma IndexOutcome(c: Clients, slot: U32, commitments: seq<string>, eb: ExecutionBlock,
                     mapping: seq<TxVersionedHashes>, txs: seq<TransactionEntity>, pubkey: string)
    requires AllHexCommitments(commitments)
    requires IndexSpec(c, slot, commitments, eb, mapping, txs, pubkey).request.Some?
    ensures var r := IndexSpec(c, slot, commitments, eb, mapping, txs, pubkey);
            var req := r.request.value;
            req.transactions == txs
            && c.toBlock(eb, slot, pubkey) == Ok(req.block)
            && BlobEntities(c, commitments, mapping) == Ok(req.blobs)
            && (r.result.Ok? <==> exists k | 0 <= k <= MAX_RETRIES :: c.index(req, k).Ok?)
  {
    var r := IndexSpec(c, slot, commitments, eb, mapping, txs, pubkey);
    var blockEntity := c.toBlock(eb, slot, pubkey).value;
    var blobs := BlobEntities(c, commitments, mapping).value;
    var req := IndexRequest(blockEntity, txs, blobs);
    assert r.request == Some(req);
    var call := IndexCall(c, req);
    RetryCountOutcome(call, IsErr, MAX_RETRIES);
    var n := RetryCount(call, IsErr, MAX_RETRIES, 0);
    assert Retried(call, IsErr) == call(n);
    if r.result.Ok? {
      assert c.index(req, n).Ok?;
    } else {
      forall k | 0 <= k <= MAX_RETRIES
        ensures c.index(req, k).Err?
      {
        assert IsErr(call(k));
      }
    }
  }

  /** With commitments, the blob entities exist exactly when the sidecar
      mapping is built and holds every versioned hash of every transaction;
      without commitments there are none. */
  lemma BlobEntitiesCases(c: Clients, commitments: seq<string>, mapping: seq<TxVersionedHashes>)
    requires AllHexCommitments(commitments)
    ensures commitments == [] ==> BlobEntities(c, commitments, mapping) == Ok([])
    ensures commitments != [] ==>
              (BlobEntities(c, commitments, mapping).Ok? <==>
                 c.versionedHashBlobs(CommitmentBlobs(commitments)).Ok?
                 && AllFound(Refs(mapping), c.versionedHashBlobs(CommitmentBlobs(commitments)).value))
  {
    if commitments != [] && c.versionedHashBlobs(CommitmentBlobs(commitments)).Ok? {
      EntitiesForOk(Refs(mapping), c.versionedHashBlobs(CommitmentBlobs(commitments)).value);
    }
  }

  /** The slots `process_slots` visits: `final..initial` backwards when
      `initial > final`, else `initial..final`. */
  function SlotsRange(initial: U32, final: U32): (slots: seq<U32>)
    ensures |slots| == if initial > final then initial - final else final - initial
  {
    if initial > final then seq(initial - final, i requires 0 <= i < initial - final => (initial - 1 - i) as U32)
    else seq(final - initial, i requires 0 <= i < final - initial => (initial + i) as U32)
  }

  /** A range holds exactly the slots between its bounds, lower bound included. */
  lemma SlotsRangeMembers(initial: U32, final: U32, s: U32)
    ensures s in SlotsRange(initial, final) <==> Min(initial, final) <= s < Max(initial, final)
  {
    var slots := SlotsRange(initial, final);
    if Min(initial, final) <= s < Max(initial, final) {
      var i := if initial > final then initial - 1 - s else s - initial;
      assert slots[i] == s;
    }
  }

  /** Forward ranges ascend and reverse ranges descend, one slot at a time. */
  lemma SlotsRangeOrder(initial: U32, final: U32, i: nat)
    requires i + 1 < |SlotsRange(initial, final)|
    ensures var slots := SlotsRange(initial, final);
            if initial > final then slots[i + 1] == slots[i] - 1 else slots[i + 1] == slots[i] + 1
  {
  }

  /** A reverse range is the forward range of the same bounds, backwards. */
  lemma SlotsRangeReverse(initial: U32, final: U32)
    requires initial > final
    ensures var back := SlotsRange(initial, final);
            var fwd := SlotsRange(final, initial);
            |back| == |fwd| && forall i | 0 <= i < |back| :: back[i] == fwd[|fwd| - 1 - i]
  {
  }

  /** One turn of `process_slots`' loop: the slot is processed and only
      whether it failed, and how, is kept. */
  method ProcessSlotResult(c: Clients, slot: U32) returns (result: Result<(), E.SlotProcessingError>)
    requires NoPanics(c)
    ensures result == ProcessSlotSpec(c, slot).result
  {
    var outcome, _ := ProcessSlot(c, slot);
    result := outcome.result;
  }

  /** `process_slots`: the slots of the range in order until the first one
      that fails, whose error is reported with the range. */
  method ProcessSlots(c: Clients, initial: U32, final: U32)
    returns (r: Result<(), E.SlotsProcessorError>, visited: seq<U32>)
    requires NoPanics(c)
    ensures visited <= SlotsRange(initial, final)
    ensures forall k | 0 <= k < |visited| - 1 :: ProcessSlotSpec(c, visited[k]).result.Ok?
    ensures r.Ok? ==> visited == SlotsRange(initial, final)
                      && forall k | 0 <= k < |visited| :: ProcessSlotSpec(c, visited[k]).result.Ok?
    ensures r.Err? ==> |visited| > 0
                       && var failed := visited[|visited| - 1];
                          ProcessSlotSpec(c, failed).result.Err?
                          && r.error == E.FailedSlotsProcessing(initial, final, failed, ProcessSlotSpec(c, failed).result.error)
  {
    var slots := SlotsRange(initial, final);
    visited := [];
    for i := 0 to |slots|
      invariant visited == slots[..i]
      invariant forall k | 0 <= k < i :: ProcessSlotSpec(c, visited[k]).result.Ok?
    {
      var current := slots[i];
      visited := visited + [current];
      var result := ProcessSlotResult(c, current);
      if result.Err? {
        r := Err(E.FailedSlotsProcessing(initial, final, current, result.error));
        return;
      }
    }
    assert slots[..|slots|] == slots;
    r := Ok(());
  }
}
