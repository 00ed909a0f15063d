/** The earlier slot processor: no retries, and a slot is indexed only when its
    beacon block carries blob commitments, its execution block has blob
    transactions and its blobs sidecar is non-empty. Only the blob transactions
    are indexed. Clients are functions of their request. */
module SlotProcessor {
  import opened Common
  import opened Hex
  import opened BeaconTypes
  import opened BlobscanEntities

  /** The errors of one slot, as the processor builds them: client errors are
      mapped explicitly, provider and other errors arrive through `?`. */
  datatype SlotProcessorError =
    | ClientError(client: Common.ClientError)
    | Provider(provider: ProviderError)
    | Other(other: AnyError)

  datatype SlotsProcessorError =
    FailedSlotsRange(initialSlot: U32, finalSlot: U32, failedSlot: U32, error: SlotProcessorError)

  datatype IndexRequest = IndexRequest(block: BlockEntity, transactions: seq<TransactionEntity>, blobs: seq<BlobEntity>)

  datatype Clients = Clients(
    getBlock: U32 -> Result<Option<Block>, Common.ClientError>,
    getExecutionBlock: H256 -> Result<Option<ExecutionBlock>, ProviderError>,
    txVersionedHashes: ExecutionBlock -> Result<seq<TxVersionedHashes>, AnyError>,
    getBlobs: U32 -> Result<Option<seq<Blob>>, Common.ClientError>,
    toBlock: (ExecutionBlock, U32) -> Result<BlockEntity, AnyError>,
    toTransaction: (H256, ExecutionBlock) -> Result<TransactionEntity, AnyError>,
    versionedHashBlobs: seq<Blob> -> Result<map<H256, Blob>, AnyError>,
    index: IndexRequest -> Result<(), Common.ClientError>)

  datatype SlotResult = SlotResult(result: Result<(), SlotProcessorError>, request: Option<IndexRequest>)

  function Skip(): SlotResult {
    SlotResult(Ok(()), None)
  }

  function Fail(e: SlotProcessorError): SlotResult {
    SlotResult(Err(e), None)
  }

  function ExecutionBlockNotFound(hash: H256): AnyError {
    AnyError("Execution block " + DisplayH256(hash) + " not found")
  }

  const BLOCKS_MISMATCH := AnyError("Blocks mismatch: Beacon block contains blob KZG commitments, but the corresponding execution block does not contain any blob transactions")

  /** `tx_hash_to_versioned_hashes.contains_key(&hash)`. */
  predicate InMapping(mapping: seq<TxVersionedHashes>, hash: H256) {
    exists i | 0 <= i < |mapping| :: mapping[i].txHash == hash
  }

  /** The block's transactions that have versioned hashes, in block order. */
  function BlobTransactions(txs: seq<H256>, mapping: seq<TxVersionedHashes>): seq<H256> {
    if txs == [] then []
    else
      var last := txs[|txs| - 1];
      BlobTransactions(txs[..|txs| - 1], mapping) + (if InMapping(mapping, last) then [last] else [])
  }

  /** The filter keeps exactly the transactions found in the mapping. */
  lemma {:induction false} BlobTransactionsMembers(txs: seq<H256>, mapping: seq<TxVersionedHashes>, h: H256)
    ensures h in BlobTransactions(txs, mapping) <==> h in txs && InMapping(mapping, h)
  {
    if txs != [] {
      var init := txs[..|txs| - 1];
      BlobTransactionsMembers(init, mapping, h);
      assert txs == init + [txs[|txs| - 1]];
    }
  }

  /** The filter distributes over concatenation, so it keeps block order. */
  lemma {:induction false} BlobTransactionsAppend(a: seq<H256>, b: seq<H256>, mapping: seq<TxVersionedHashes>)
    ensures BlobTransactions(a + b, mapping) == BlobTransactions(a, mapping) + BlobTransactions(b, mapping)
    decreases |b|
  {
    if b == [] {
      assert a + b == a;
    } else {
      var init := b[..|b| - 1];
      BlobTransactionsAppend(a, init, mapping);
      assert (a + b)[..|a + b| - 1] == a + init;
    }
  }

  function TxConverter(c: Clients, eb: ExecutionBlock): H256 -> Result<TransactionEntity, AnyError> {
    (tx: H256) => c.toTransaction(tx, eb)
  }

  predicate HasCommitments(b: Block) {
    b.message.body.blobKzgCommitments.Some? && b.message.body.blobKzgCommitments.value != []
  }

  /** The ladder from the blobs sidecar on. */
  function EntitiesSpec(c: Clients, slot: U32, eb: ExecutionBlock, mapping: seq<TxVersionedHashes>, blobs: seq<Blob>): SlotResult {
    match c.toBlock(eb, slot)
    case Err(e) => Fail(Other(e))
    case Ok(blockEntity) =>
      match ConvertAll(BlobTransactions(eb.transactions, mapping), TxConverter(c, eb))
      case Err(e) => Fail(Other(e))
      case Ok(txs) =>
        match c.versionedHashBlobs(blobs)
        case Err(e) => Fail(Other(e))
        case Ok(byHash) =>
          match EntitiesFor(Refs(mapping), byHash)
          case Err(e) => Fail(Other(e))
          case Ok(entities) =>
            var req := IndexRequest(blockEntity, txs, entities);
            match c.index(req)
            case Err(e) => SlotResult(Err(SlotProcessorError.ClientError(e)), Some(req))
            case Ok(_) => SlotResult(Ok(()), Some(req))
  }

  /** What `process_slot` does with `slot`. */
  function ProcessSlotSpec(c: Clients, slot: U32): SlotResult {
    match c.getBlock(slot)
    case Err(e) => Fail(SlotProcessorError.ClientError(e))
    case Ok(None) => Skip()
    case Ok(Some(block)) =>
      match block.message.body.executionPayload
      case None => Skip()
      case Some(payload) =>
        if !HasCommitments(block) then Skip()
        else
          match c.getExecutionBlock(payload.blockHash)
          case Err(e) => Fail(Provider(e))
          case Ok(None) => Fail(Other(ExecutionBlockNotFound(payload.blockHash)))
          case Ok(Some(eb)) =>
            match c.txVersionedHashes(eb)
            case Err(e) => Fail(Other(e))
            case Ok(mapping) =>
              if mapping == [] then Fail(Other(BLOCKS_MISMATCH))
              else
                match c.getBlobs(slot)
                case Err(e) => Fail(SlotProcessorError.ClientError(e))
                case Ok(None) => Skip()
                case Ok(Some(blobs)) =>
                  if blobs == [] then Skip() else EntitiesSpec(c, slot, eb, mapping, blobs)
  }

  /** A slot reaches `index` only when the block has a payload and
      commitments, the execution block is found and has blob transactions, and
      the sidecar is non-empty; the request then holds the block entity, the
      converted blob transactions and the blob entities assembled from the
      sidecar, one per versioned hash. */
  lemma IndexedOnlyAfterChecks(c: Clients, slot: U32)
    requires ProcessSlotSpec(c, slot).request.Some?
    ensures c.getBlock(slot).Ok? && c.getBlock(slot).value.Some?
    ensures var block := c.getBlock(slot).value.value;
            block.message.body.executionPayload.Some? && HasCommitments(block)
            && var hash := block.message.body.executionPayload.value.blockHash;
               c.getExecutionBlock(hash).Ok? && c.getExecutionBlock(hash).value.Some?
               && var eb := c.getExecutionBlock(hash).value.value;
                  c.txVersionedHashes(eb).Ok? && c.txVersionedHashes(eb).value != []
                  && c.getBlobs(slot).Ok? && c.getBlobs(slot).value.Some? && c.getBlobs(slot).value.value != []
                  && var mapping := c.txVersionedHashes(eb).value;
                     var req := ProcessSlotSpec(c, slot).request.value;
                     Ok(req.block) == c.toBlock(eb, slot)
                     && Ok(req.transactions) == ConvertAll(BlobTransactions(eb.transactions, mapping), TxConverter(c, eb))
                     && c.versionedHashBlobs(c.getBlobs(slot).value.value).Ok?
                     && Ok(req.blobs) == EntitiesFor(Refs(mapping), c.versionedHashBlobs(c.getBlobs(slot).value.value).value)
                     && |req.blobs| == |Refs(mapping)|
  {
    var block := c.getBlock(slot).value.value;
    var eb := c.getExecutionBlock(block.message.body.executionPayload.value.blockHash).value.value;
    var mapping := c.txVersionedHashes(eb).value;
    var byHash := c.versionedHashBlobs(c.getBlobs(slot).value.value).value;
    EntitiesForOk(Refs(mapping), byHash);
  }

  /** Missing data and missing blobs skip a slot without indexing it. */
  lemma SkipCases(c: Clients, slot: U32)
    ensures c.getBlock(slot) == Ok(None) ==> ProcessSlotSpec(c, slot) == Skip()
    ensures c.getBlock(slot).Ok? && c.getBlock(slot).value.Some? ==>
              var block := c.getBlock(slot).value.value;
              (block.message.body.executionPayload.None? || !HasCommitments(block)) ==> ProcessSlotSpec(c, slot) == Skip()
    ensures c.getBlock(slot).Ok? && c.getBlock(slot).value.Some? ==>
              var block := c.getBlock(slot).value.value;
              block.message.body.executionPayload.Some? && HasCommitments(block) ==>
                var hash := block.message.body.executionPayload.value.blockHash;
                c.getExecutionBlock(hash).Ok? && c.getExecutionBlock(hash).value.Some? ==>
                  var eb := c.getExecutionBlock(hash).value.value;
                  c.txVersionedHashes(eb).Ok? && c.txVersionedHashes(eb).value != []
                  && (c.getBlobs(slot) == Ok(None) || c.getBlobs(slot) == Ok(Some([]))) ==>
                    ProcessSlotSpec(c, slot) == Skip()
  {
  }

  /** Those are the only skips: a skipped slot lacks its block, its payload,
      its commitments or its blobs sidecar, or has an empty sidecar. */
  lemma SkipOnlyWhenMissing(c: Clients, slot: U32)
    requires ProcessSlotSpec(c, slot) == Skip()
    ensures c.getBlock(slot).Ok?
    ensures c.getBlock(slot).value.Some? ==>
              var block := c.getBlock(slot).value.value;
              block.message.body.executionPayload.None? || !HasCommitments(block)
              || c.getBlobs(slot) == Ok(None) || c.getBlobs(slot) == Ok(Some([]))
  {
  }

  /** A block with commitments whose execution block has no blob
      transactions is a mismatch. */
  lemma MismatchIsError(c: Clients, slot: U32, block: Block, eb: ExecutionBlock)
    requires c.getBlock(slot) == Ok(Some(block))
    requires block.message.body.executionPayload.Some? && HasCommitments(block)
    requires c.getExecutionBlock(block.message.body.executionPayload.value.blockHash) == Ok(Some(eb))
    requires c.txVersionedHashes(eb) == Ok([])
    ensures ProcessSlotSpec(c, slot) == Fail(Other(BLOCKS_MISMATCH))
  {
  }

  method ProcessEntities(c: Clients, slot: U32, eb: ExecutionBlock, mapping: seq<TxVersionedHashes>, blobs: seq<Blob>)
    returns (r: SlotResult)
    ensures r == EntitiesSpec(c, slot, eb, mapping, blobs)
  {
    var blockEntity;
    match c.toBlock(eb, slot) {
      case Err(e) => r := Fail(Other(e)); return;
      case Ok(b) => blockEntity := b;
    }
    var txs;
    match ConvertAll(BlobTransactions(eb.transactions, mapping), TxConverter(c, eb)) {
      case Err(e) => r := Fail(Other(e)); return;
      case Ok(t) => txs := t;
    }
    var byHash;
    match c.versionedHashBlobs(blobs) {
      case Err(e) => r := Fail(Other(e)); return;
      case Ok(m) => byHash := m;
    }
    var collected := CollectBlobEntities(mapping, byHash);
    var entities;
    match collected {
      case Err(e) => r := Fail(Other(e)); return;
      case Ok(es) => entities := es;
    }
    var req := IndexRequest(blockEntity, txs, entities);
    match c.index(req) {
      case Err(e) => r := SlotResult(Err(SlotProcessorError.ClientError(e)), Some(req));
      case Ok(_) => r := SlotResult(Ok(()), Some(req));
    }
  }

  /** `process_slot`, step by step with its early returns; the lemmas
      about what a slot's processing promises are stated on
      `ProcessSlotSpec`, which this method computes. */
  method ProcessSlot(c: Clients, slot: U32) returns (r: SlotResult)
    ensures r == ProcessSlotSpec(c, slot)
  {
    var block;
    match c.getBlock(slot) {
      case Err(e) => r := Fail(SlotProcessorError.ClientError(e)); return;
      case Ok(None) => r := Skip(); return;
      case Ok(Some(b)) => block := b;
    }
    var payload;
    match block.message.body.executionPayload {
      case None => r := Skip(); return;
      case Some(p) => payload := p;
    }
    var hasCommitments := match block.message.body.blobKzgCommitments
      case Some(commitments) => commitments != []
      case None => false;
    if !hasCommitments {
      r := Skip();
      return;
    }
    var eb;
    match c.getExecutionBlock(payload.blockHash) {
      case Err(e) => r := Fail(Provider(e)); return;
      case Ok(None) => r := Fail(Other(ExecutionBlockNotFound(payload.blockHash))); return;
      case Ok(Some(b)) => eb := b;
    }
    var mapping;
    match c.txVersionedHashes(eb) {
      case Err(e) => r := Fail(Other(e)); return;
      case Ok(m) => mapping := m;
    }
    if mapping == [] {
      r := Fail(Other(BLOCKS_MISMATCH));
      return;
    }
    var blobs;
    match c.getBlobs(slot) {
      case Err(e) => r := Fail(SlotProcessorError.ClientError(e)); return;
      case Ok(None) => r := Skip(); return;
      case Ok(Some(bs)) => blobs := bs;
    }
    if blobs == [] {
      r := Skip();
      return;
    }
    r := ProcessEntities(c, slot, eb, mapping, blobs);
  }

  /** `process_slots`: `from_slot..to_slot` in ascending order until the first failure. */
  method ProcessSlots(c: Clients, fromSlot: U32, toSlot: U32)
    returns (r: Result<(), SlotsProcessorError>, visited: seq<U32>)
    ensures fromSlot >= toSlot ==> visited == [] && r.Ok?
    ensures forall k | 0 <= k < |visited| :: visited[k] == fromSlot + k
    ensures forall k | 0 <= k < |visited| - 1 :: ProcessSlotSpec(c, visited[k]).result.Ok?
    ensures r.Ok? ==> |visited| == Max(toSlot - fromSlot, 0)
                      && forall k | 0 <= k < |visited| :: ProcessSlotSpec(c, visited[k]).result.Ok?
    ensures r.Err? ==> |visited| > 0
                       && var failed := visited[|visited| - 1];
                          ProcessSlotSpec(c, failed).result.Err?
                          && r.error == FailedSlotsRange(fromSlot, toSlot, failed, ProcessSlotSpec(c, failed).result.error)
  {
    visited := [];
    var current := fromSlot;
    while current < toSlot
      decreases toSlot - current
      invariant fromSlot <= current && (fromSlot < toSlot ==> current <= toSlot)
      invariant fromSlot >= toSlot ==> current == fromSlot
      invariant |visited| == current - fromSlot
      invariant forall k | 0 <= k < |visited| :: visited[k] == fromSlot + k
      invariant forall k | 0 <= k < |visited| :: ProcessSlotSpec(c, visited[k]).result.Ok?
    {
      visited := visited + [current];
      var outcome := ProcessSlot(c, current);
      if outcome.result.Err? {
        r := Err(FailedSlotsRange(fromSlot, toSlot, current, outcome.result.error));
        return;
      }
      current := current + 1;
    }
    r := Ok(());
  }
}
