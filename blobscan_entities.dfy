/** The assembly of the blob entities both slot processors send to the blobscan
    API: for every blob transaction, in the iteration order of the transaction
    to versioned hashes mapping, and for every versioned hash `i` of it, the
    sidecar blob with that versioned hash. A versioned hash without a blob is an
    error naming the first such hash. The two mappings are built by helpers
    outside this model; they are inputs here. */
module BlobscanEntities {
  import opened Common
  import opened Decimal
  import opened Hex
  import opened BeaconTypes

  /** One entry of the transaction to versioned hashes mapping. */
  datatype TxVersionedHashes = TxVersionedHashes(txHash: H256, versionedHashes: seq<H256>)

  /** The execution block fetched from the provider, as far as the processors
      read it: its hash, its number and the hashes of its transactions. */
  datatype ExecutionBlock = ExecutionBlock(hash: H256, number: U32, transactions: seq<H256>)

  /** The blobscan block and transaction entities; the conversions that build
      them are outside this model and reach it as functions. */
  datatype BlockEntity = BlockEntity(hash: H256, number: U32, slot: U32)

  datatype TransactionEntity = TransactionEntity(hash: H256)

  /** `map(Transaction::try_from).collect::<Result<Vec<_>>>()`: all
      conversions in order, or the first one that fails. */
  function ConvertAll(txs: seq<H256>, convert: H256 -> Result<TransactionEntity, AnyError>): Result<seq<TransactionEntity>, AnyError> {
    if txs == [] then Ok([])
    else
      match ConvertAll(txs[..|txs| - 1], convert)
      case Err(e) => Err(e)
      case Ok(done) =>
        match convert(txs[|txs| - 1])
        case Err(e) => Err(e)
        case Ok(t) => Ok(done + [t])
  }

  /** Collecting succeeds exactly when every conversion does, and then keeps
      the order and the number of the transactions. */
  lemma {:induction false} ConvertAllOk(txs: seq<H256>, convert: H256 -> Result<TransactionEntity, AnyError>)
    ensures ConvertAll(txs, convert).Ok? <==> forall i | 0 <= i < |txs| :: convert(txs[i]).Ok?
    ensures ConvertAll(txs, convert).Ok? ==>
              |ConvertAll(txs, convert).value| == |txs|
              && forall i | 0 <= i < |txs| :: ConvertAll(txs, convert).value[i] == convert(txs[i]).value
  {
    if txs != [] {
      var init := txs[..|txs| - 1];
      ConvertAllOk(init, convert);
      if forall i | 0 <= i < |txs| :: convert(txs[i]).Ok? {
        forall i | 0 <= i < |init|
          ensures convert(init[i]).Ok?
        {
          assert init[i] == txs[i];
        }
      }
      if ConvertAll(txs, convert).Ok? {
        forall i | 0 <= i < |txs|
          ensures convert(txs[i]).Ok?
        {
          if i < |init| {
            assert init[i] == txs[i];
          }
        }
      }
    }
  }

  /** `Blob::from((blob, versioned_hash, i, tx_hash))`. */
  datatype BlobEntity = BlobEntity(blob: Blob, versionedHash: H256, index: nat, txHash: H256)

  /** The position of one versioned hash: its transaction and its index there. */
  datatype BlobRef = BlobRef(txHash: H256, index: nat, versionedHash: H256)

  /** The versioned hashes of one transaction, enumerated. */
  function RefsOf(e: TxVersionedHashes): (refs: seq<BlobRef>)
    ensures |refs| == |e.versionedHashes|
    ensures forall i | 0 <= i < |refs| :: refs[i] == BlobRef(e.txHash, i, e.versionedHashes[i])
  {
    seq(|e.versionedHashes|, i requires 0 <= i < |e.versionedHashes| => BlobRef(e.txHash, i, e.versionedHashes[i]))
  }

  /** All versioned hashes in the order the nested loops visit them. */
  function Refs(mapping: seq<TxVersionedHashes>): seq<BlobRef> {
    if mapping == [] then [] else Refs(mapping[..|mapping| - 1]) + RefsOf(mapping[|mapping| - 1])
  }

  function SidecarNotFound(r: BlobRef): AnyError {
    AnyError("Sidecar not found for blob " + ToDecimal(r.index) + " with versioned hash "
             + DisplayH256(r.versionedHash) + " from tx " + DisplayH256(r.txHash))
  }

  function EntityFor(r: BlobRef, blobs: map<H256, Blob>): BlobEntity
    requires r.versionedHash in blobs
  {
    BlobEntity(blobs[r.versionedHash], r.versionedHash, r.index, r.txHash)
  }

  /** The entities for `refs` in order, or the error of the first hash that
      has no blob. */
  function EntitiesFor(refs: seq<BlobRef>, blobs: map<H256, Blob>): Result<seq<BlobEntity>, AnyError> {
    if refs == [] then Ok([])
    else
      var last := refs[|refs| - 1];
      match EntitiesFor(refs[..|refs| - 1], blobs)
      case Err(e) => Err(e)
      case Ok(es) => if last.versionedHash in blobs then Ok(es + [EntityFor(last, blobs)]) else Err(SidecarNotFound(last))
  }

  predicate AllFound(refs: seq<BlobRef>, blobs: map<H256, Blob>) {
    forall k | 0 <= k < |refs| :: refs[k].versionedHash in blobs
  }

  /** Assembly succeeds exactly when every versioned hash has a blob, and then
      yields one entity per hash, in order. */
  lemma {:induction false} EntitiesForOk(refs: seq<BlobRef>, blobs: map<H256, Blob>)
    ensures EntitiesFor(refs, blobs).Ok? <==> AllFound(refs, blobs)
    ensures EntitiesFor(refs, blobs).Ok? ==>
              var es := EntitiesFor(refs, blobs).value;
              |es| == |refs| && forall k | 0 <= k < |refs| :: es[k] == EntityFor(refs[k], blobs)
  {
    if refs != [] {
      var init := refs[..|refs| - 1];
      EntitiesForOk(init, blobs);
      assert AllFound(refs, blobs) ==> AllFound(init, blobs) by {
        if AllFound(refs, blobs) {
          forall k | 0 <= k < |init|
            ensures init[k].versionedHash in blobs
          {
            assert init[k] == refs[k];
          }
        }
      }
      assert AllFound(init, blobs) && refs[|refs| - 1].versionedHash in blobs ==> AllFound(refs, blobs) by {
        if AllFound(init, blobs) && refs[|refs| - 1].versionedHash in blobs {
          forall k | 0 <= k < |refs|
            ensures refs[k].versionedHash in blobs
          {
            if k < |init| {
              assert refs[k] == init[k];
            }
          }
        }
      }
    }
  }

  /** The position of the first versioned hash that has no blob. */
  lemma {:induction false} FirstMissing(refs: seq<BlobRef>, blobs: map<H256, Blob>) returns (k: nat)
    requires EntitiesFor(refs, blobs).Err?
    ensures k < |refs| && refs[k].versionedHash !in blobs && AllFound(refs[..k], blobs)
    ensures EntitiesFor(refs, blobs).error == SidecarNotFound(refs[k])
  {
    var n := |refs| - 1;
    var init := refs[..n];
    if EntitiesFor(init, blobs).Err? {
      k := FirstMissing(init, blobs);
      PrefixOfPrefix(refs, n, k);
      assert refs[k] == init[k];
    } else {
      EntitiesForOk(init, blobs);
      k := n;
    }
  }

  /** A failed assembly reports the first versioned hash that has no blob. */
  lemma EntitiesForErr(refs: seq<BlobRef>, blobs: map<H256, Blob>)
    requires EntitiesFor(refs, blobs).Err?
    ensures exists k | 0 <= k < |refs| ::
              refs[k].versionedHash !in blobs && AllFound(refs[..k], blobs)
              && EntitiesFor(refs, blobs).error == SidecarNotFound(refs[k])
  {
    var k := FirstMissing(refs, blobs);
  }

  /** Once an error is reported, later hashes do not change it. */
  lemma {:induction false} EntitiesForErrSticks(a: seq<BlobRef>, b: seq<BlobRef>, blobs: map<H256, Blob>)
    requires EntitiesFor(a, blobs).Err?
    ensures EntitiesFor(a + b, blobs) == EntitiesFor(a, blobs)
    decreases |b|
  {
    if b == [] {
      assert a + b == a;
    } else {
      var init := b[..|b| - 1];
      EntitiesForErrSticks(a, init, blobs);
      assert (a + b)[..|a + b| - 1] == a + init;
    }
  }

  lemma {:induction false} RefsAppend(a: seq<TxVersionedHashes>, b: seq<TxVersionedHashes>)
    ensures Refs(a + b) == Refs(a) + Refs(b)
    decreases |b|
  {
    if b == [] {
      assert a + b == a;
    } else {
      var init := b[..|b| - 1];
      var last := b[|b| - 1];
      var ab := a + b;
      RefsAppend(a, init);
      assert ab[..|ab| - 1] == a + init && ab[|ab| - 1] == last;
      assert Refs(ab) == Refs(a + init) + RefsOf(last);
      assert Refs(b) == Refs(init) + RefsOf(last);
    }
  }

  /** Every versioned hash of every transaction appears, with its position. */
  lemma {:induction false} RefsCover(mapping: seq<TxVersionedHashes>, t: nat, i: nat)
    requires t < |mapping| && i < |mapping[t].versionedHashes|
    ensures BlobRef(mapping[t].txHash, i, mapping[t].versionedHashes[i]) in Refs(mapping)
    decreases |mapping|
  {
    var init := mapping[..|mapping| - 1];
    if t < |mapping| - 1 {
      assert init[t] == mapping[t];
      RefsCover(init, t, i);
    } else {
      assert RefsOf(mapping[t])[i] == BlobRef(mapping[t].txHash, i, mapping[t].versionedHashes[i]);
    }
  }

  /** The hashes visited before index `i` of transaction `t`. */
  function Visited(mapping: seq<TxVersionedHashes>, t: nat, i: nat): seq<BlobRef>
    requires t < |mapping| && i <= |mapping[t].versionedHashes|
  {
    Refs(mapping[..t]) + RefsOf(mapping[t])[..i]
  }

  lemma VisitedStart(mapping: seq<TxVersionedHashes>, t: nat)
    requires t < |mapping|
    ensures Visited(mapping, t, 0) == Refs(mapping[..t])
  {
    assert RefsOf(mapping[t])[..0] == [];
  }

  lemma VisitedEnd(mapping: seq<TxVersionedHashes>, t: nat)
    requires t < |mapping|
    ensures Visited(mapping, t, |mapping[t].versionedHashes|) == Refs(mapping[..t + 1])
  {
    assert mapping[..t + 1][..t] == mapping[..t];
    assert RefsOf(mapping[t])[..|mapping[t].versionedHashes|] == RefsOf(mapping[t]);
  }

  lemma VisitedStep(mapping: seq<TxVersionedHashes>, t: nat, i: nat, blobs: map<H256, Blob>)
    requires t < |mapping| && i < |mapping[t].versionedHashes|
    requires EntitiesFor(Visited(mapping, t, i), blobs).Ok?
    ensures var ref := BlobRef(mapping[t].txHash, i, mapping[t].versionedHashes[i]);
            EntitiesFor(Visited(mapping, t, i + 1), blobs)
            == if ref.versionedHash in blobs
               then Ok(EntitiesFor(Visited(mapping, t, i), blobs).value + [EntityFor(ref, blobs)])
               else Err(SidecarNotFound(ref))
  {
    var ref := BlobRef(mapping[t].txHash, i, mapping[t].versionedHashes[i]);
    var next := Visited(mapping, t, i + 1);
    assert RefsOf(mapping[t])[..i + 1] == RefsOf(mapping[t])[..i] + [ref];
    assert next == Visited(mapping, t, i) + [ref];
    assert next[..|next| - 1] == Visited(mapping, t, i);
  }

  lemma Concat4<T>(a: seq<T>, b: seq<T>, c: seq<T>, d: seq<T>)
    ensures a + (b + c) + d == (a + b) + (c + d)
  {
  }

  lemma PrefixOfPrefix<T>(s: seq<T>, n: nat, j: nat)
    requires j <= n <= |s|
    ensures s[..n][..j] == s[..j]
  {
  }

  lemma RefsAround(mapping: seq<TxVersionedHashes>, t: nat)
    requires t < |mapping|
    ensures Refs(mapping) == Refs(mapping[..t]) + RefsOf(mapping[t]) + Refs(mapping[t + 1..])
  {
    var head := mapping[..t + 1];
    assert mapping == head + mapping[t + 1..];
    RefsAppend(head, mapping[t + 1..]);
    assert head[..|head| - 1] == mapping[..t];
    assert Refs(head) == Refs(mapping[..t]) + RefsOf(mapping[t]);
  }

  /** A hash with no blob decides the outcome of the whole assembly. */
  lemma VisitedMissing(mapping: seq<TxVersionedHashes>, t: nat, i: nat, blobs: map<H256, Blob>)
    requires t < |mapping| && i < |mapping[t].versionedHashes|
    requires EntitiesFor(Visited(mapping, t, i + 1), blobs).Err?
    ensures EntitiesFor(Refs(mapping), blobs) == EntitiesFor(Visited(mapping, t, i + 1), blobs)
  {
    var pre := Refs(mapping[..t]);
    var own := RefsOf(mapping[t]);
    var post := Refs(mapping[t + 1..]);
    RefsAround(mapping, t);
    assert own == own[..i + 1] + own[i + 1..];
    Concat4(pre, own[..i + 1], own[i + 1..], post);
    EntitiesForErrSticks(Visited(mapping, t, i + 1), own[i + 1..] + post, blobs);
  }

  /** The nested loops of `process_slot`. */
  method CollectBlobEntities(mapping: seq<TxVersionedHashes>, blobs: map<H256, Blob>)
    returns (r: Result<seq<BlobEntity>, AnyError>)
    ensures r == EntitiesFor(Refs(mapping), blobs)
  {
    var entities: seq<BlobEntity> := [];
    for t := 0 to |mapping|
      invariant EntitiesFor(Refs(mapping[..t]), blobs) == Ok(entities)
    {
      var entry := mapping[t];
      VisitedStart(mapping, t);
      for i := 0 to |entry.versionedHashes|
        invariant EntitiesFor(Visited(mapping, t, i), blobs) == Ok(entities)
      {
        var versionedHash := entry.versionedHashes[i];
        VisitedStep(mapping, t, i, blobs);
        if versionedHash !in blobs {
          r := Err(SidecarNotFound(BlobRef(entry.txHash, i, versionedHash)));
          VisitedMissing(mapping, t, i, blobs);
          return;
        }
        entities := entities + [BlobEntity(blobs[versionedHash], versionedHash, i, entry.txHash)];
      }
      VisitedEnd(mapping, t);
    }
    assert mapping[..|mapping|] == mapping;
    r := Ok(entities);
  }
}
