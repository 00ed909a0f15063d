/** The beacon node's wire types: block identifiers with their parser and
    printers, event topics, the decoded responses, and the construction of a
    blobs response from KZG commitments. */
module BeaconTypes {
  import opened Common
  import opened Decimal
  import opened Hex

  datatype BlockId = Head | Finalized | Slot(slot: U32) | Hash(hash: H256)

  datatype Topic = HeadTopic | FinalizedCheckpoint | ChainReorg

  datatype ExecutionPayload = ExecutionPayload(blockHash: H256, blockNumber: U32)

  datatype BlockBody = BlockBody(executionPayload: Option<ExecutionPayload>, blobKzgCommitments: Option<seq<string>>)

  datatype BlockMessage = BlockMessage(slot: U32, proposerIndex: U64, body: BlockBody, parentRoot: H256)

  datatype Block = Block(message: BlockMessage)

  datatype BlockHeaderMessage = BlockHeaderMessage(parentRoot: H256, slot: U32)

  datatype InnerBlockHeader = InnerBlockHeader(message: BlockHeaderMessage)

  datatype BlockHeader = BlockHeader(root: H256, header: InnerBlockHeader)

  datatype ChainReorgEventData = ChainReorgEventData(oldHeadBlock: H256, newHeadBlock: H256, slot: U32, depth: U32)

  datatype HeadEventData = HeadEventData(slot: U32, block: H256)

  datatype FinalizedCheckpointEventData = FinalizedCheckpointEventData(block: H256)

  datatype Blob = Blob(index: string, kzgCommitment: string, kzgProof: string, blob: seq<Byte>)

  datatype BlobsResponse = BlobsResponse(data: seq<Blob>)

  datatype Column = Column(index: string, blobKzgCommitments: seq<string>, segmentKzgProofs: seq<string>, segments: seq<string>)

  datatype ColumnsResponse = ColumnsResponse(data: seq<Column>)

  /** `BlockId::to_detailed_string`: the form the REST paths use. */
  function ToDetailedString(id: BlockId): string {
    match id
    case Head => "head"
    case Finalized => "finalized"
    case Slot(n) => ToDecimal(n)
    case Hash(h) => "0x" + LowerHex(h)
  }

  /** `Display for BlockId`: a hash prints in its abbreviated form. */
  function Display(id: BlockId): string {
    match id
    case Head => "head"
    case Finalized => "finalized"
    case Slot(n) => ToDecimal(n)
    case Hash(h) => DisplayH256(h)
  }

  function InvalidHashMessage(s: string): string {
    "Invalid block ID hash: " + s
  }

  function InvalidIdMessage(s: string): string {
    "Invalid block ID: " + s + ". Expected 'head', 'finalized', a hash or a number."
  }

  /** `BlockId::from_str`: the keywords, then a u32, then a `0x` hash. */
  function FromStr(s: string): Result<BlockId, string> {
    if s == "head" then Ok(Head)
    else if s == "finalized" then Ok(Finalized)
    else match ParseU32(s)
      case Ok(n) => Ok(Slot(n))
      case Err(_) =>
        if HasHexPrefix(s) then
          match ParseH256(s)
          case Some(h) => Ok(Hash(h))
          case None => Err(InvalidHashMessage(s))
        else Err(InvalidIdMessage(s))
  }

  /** `From<&Topic> for String`. */
  function TopicName(t: Topic): string {
    match t
    case ChainReorg => "chain_reorg"
    case HeadTopic => "head"
    case FinalizedCheckpoint => "finalized_checkpoint"
  }

  /** `Display for ParseIntError`. */
  function IntErrorMessage(k: IntErrorKind): string {
    match k
    case Empty => "cannot parse integer from empty string"
    case InvalidDigit => "invalid digit found in string"
    case PosOverflow => "number too large to fit in target type"
  }

  /** `deserialize_number`: a JSON string holding a u32. */
  function DeserializeNumber(s: string): (r: Result<U32, string>)
    ensures r.Ok? <==> IsU32Literal(s)
    ensures r.Ok? ==> r.value == ValueOf(Unsigned(s))
    ensures ParseU32(s).Err? ==> r == Err(IntErrorMessage(ParseU32(s).error))
  {
    ParseU32Accepts(s);
    match ParseU32(s)
    case Ok(n) => Ok(n)
    case Err(k) => Err(IntErrorMessage(k))
  }

  lemma DecodeHexLength(s: string)
    requires DecodeHex(s).Some?
    ensures |s| == 2 * |DecodeHex(s).value|
    decreases |s|
  {
    if s != [] {
      DecodeHexLength(s[2..]);
    }
  }

  lemma HexPrefixNotKeyword(s: string)
    requires HasHexPrefix(s)
    ensures s != "head" && s != "finalized"
  {
    assert s[0] == '0';
  }

  /** How `from_str` classifies every input. */
  lemma FromStrCases(s: string)
    ensures FromStr(s) == Ok(Head) <==> s == "head"
    ensures FromStr(s) == Ok(Finalized) <==> s == "finalized"
    ensures (FromStr(s).Ok? && FromStr(s).value.Slot?) <==> IsU32Literal(s)
    ensures IsU32Literal(s) ==> FromStr(s) == Ok(Slot(ValueOf(Unsigned(s))))
    ensures (FromStr(s).Ok? && FromStr(s).value.Hash?) <==>
              (!IsU32Literal(s) && HasHexPrefix(s) && ParseH256(s).Some?)
    ensures FromStr(s).Ok? && FromStr(s).value.Hash? ==>
              |s| == 66 && forall i | 2 <= i < 66 :: HexValue(s[i]).Some?
    ensures !IsU32Literal(s) && HasHexPrefix(s) && ParseH256(s).None? ==>
              FromStr(s) == Err(InvalidHashMessage(s))
    ensures s != "head" && s != "finalized" && !IsU32Literal(s) && !HasHexPrefix(s) ==>
              FromStr(s) == Err(InvalidIdMessage(s))
  {
    ParseU32Accepts(s);
    ParseU32Accepts("head");
    ParseU32Accepts("finalized");
    assert !IsDigit("head"[0]) && !IsDigit("finalized"[0]);
    if HasHexPrefix(s) {
      HexPrefixNotKeyword(s);
      HexPrefixIsNotNumber(s);
    }
    if FromStr(s).Ok? && FromStr(s).value.Hash? {
      var t := StripHexPrefix(s);
      DecodeHexLength(t);
      forall i | 2 <= i < 66
        ensures HexValue(s[i]).Some?
      {
        DecodeHexDigits(t, i - 2);
      }
    }
  }

  /** `ParseU32` rejects any string whose second character is `x`. */
  lemma HexPrefixIsNotNumber(s: string)
    requires HasHexPrefix(s)
    ensures ParseU32(s).Err?
  {
    assert s[0] == '0' && s[1] == 'x';
    assert ScanU32(0, s) == ScanU32(0, s[1..]);
  }

  /** Round trip: every block identifier parses back from its detailed string. */
  lemma FromStrToDetailedString(id: BlockId)
    ensures FromStr(ToDetailedString(id)) == Ok(id)
  {
    match id
    case Head =>
    case Finalized =>
    case Slot(n) =>
      var s := ToDecimal(n);
      ParseToDecimal(n);
      assert s != "head" && s != "finalized" by {
        assert IsDigit(s[0]);
      }
    case Hash(h) =>
      var s := "0x" + LowerHex(h);
      assert s[..2] == "0x";
      HexPrefixIsNotNumber(s);
      ParseLowerHex(h);
      assert s != "head" && s != "finalized" by {
        assert s[0] == '0';
      }
  }

  /** `Display` agrees with `to_detailed_string` except on hashes, whose
      abbreviated display no longer parses as a block identifier. */
  lemma DisplayVersusDetailedString(id: BlockId)
    ensures !id.Hash? ==> Display(id) == ToDetailedString(id)
    ensures id.Hash? ==> FromStr(Display(id)) == Err(InvalidHashMessage(Display(id)))
  {
    if id.Hash? {
      var s := Display(id);
      var h := id.hash;
      assert s[..2] == "0x";
      HexPrefixIsNotNumber(s);
      assert s != "head" && s != "finalized" by {
        assert s[0] == '0';
      }
      var t := StripHexPrefix(s);
      assert t[4] == '…';
      if DecodeHex(t).Some? {
        DecodeHexDigits(t, 4);
        assert false;
      }
    }
  }

  lemma TopicNamesDistinct(a: Topic, b: Topic)
    ensures TopicName(a) == TopicName(b) <==> a == b
  {
  }

  predicate AllHexCommitments(commitments: seq<string>) {
    forall i | 0 <= i < |commitments| :: ParseBytes(commitments[i]).Some?
  }

  /** The blob built from the commitment at position `i`. */
  function CommitmentBlob(i: nat, commitment: string): Blob
    requires ParseBytes(commitment).Some?
  {
    Blob(ToDecimal(i), commitment, "", ParseBytes(commitment).value)
  }

  /** The blobs built from `commitments`, one per commitment, in order. */
  function CommitmentBlobs(commitments: seq<string>): (blobs: seq<Blob>)
    requires AllHexCommitments(commitments)
    ensures |blobs| == |commitments|
    ensures forall i | 0 <= i < |commitments| ::
              blobs[i] == Blob(ToDecimal(i), commitments[i], "", ParseBytes(commitments[i]).value)
  {
    if commitments == [] then []
    else
      var n := |commitments| - 1;
      CommitmentBlobs(commitments[..n]) + [CommitmentBlob(n, commitments[n])]
  }

  /** `BlobsResponse::from(Vec<String>)`: one blob per commitment, in order,
      indexed by its position, with an empty proof and the commitment's bytes
      (the source unwraps the hex decoding, so the commitments must be hex). */
  method FromCommitments(commitments: seq<string>) returns (r: BlobsResponse)
    requires AllHexCommitments(commitments)
    ensures r.data == CommitmentBlobs(commitments)
  {
    var blobs: seq<Blob> := [];
    for i := 0 to |commitments|
      invariant blobs == CommitmentBlobs(commitments[..i])
    {
      assert commitments[..i + 1][..i] == commitments[..i];
      blobs := blobs + [CommitmentBlob(i, commitments[i])];
    }
    assert commitments[..|commitments|] == commitments;
    r := BlobsResponse(blobs);
  }

  /** `BlobsResponse::from(ColumnsResponse)`: the blobs of the first column's
      commitments (the source indexes `data[0]`). */
  method FromColumns(columns: ColumnsResponse) returns (r: BlobsResponse)
    requires |columns.data| > 0
    requires AllHexCommitments(columns.data[0].blobKzgCommitments)
    ensures r.data == CommitmentBlobs(columns.data[0].blobKzgCommitments)
  {
    r := FromCommitments(columns.data[0].blobKzgCommitments);
  }
}
