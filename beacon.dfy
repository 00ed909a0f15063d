/** The beacon REST client: its base URL, the paths of the requests it makes,
    the events subscription query, and the unwrapping of the `data` envelope.
    The HTTP round trip itself (`json_get!`) is an oracle from URL to decoded
    response; URL joining is concatenation onto a base that ends in `/`. */
module Beacon {
  import opened Common
  import opened Decimal
  import opened BeaconTypes

  datatype Config = Config(baseUrl: string)

  datatype BeaconClient = BeaconClient(baseUrl: string)

  /** Every response body is an envelope whose `data` field is the payload. */
  datatype Response<T> = Response(data: T)

  /** Minimal shapes of the validator lookup's payload. */
  datatype Validator = Validator(pubkey: string)

  datatype ValidatorContainer = ValidatorContainer(validator: Validator)

  const BASE_URL_ERROR := "Failed to parse base URL"

  /** `BeaconClient::try_with_client`; `urlParses` stands for `Url::parse`. */
  function TryWithClient(config: Config, urlParses: string -> bool): (r: Result<BeaconClient, ClientError>)
    ensures r.Ok? <==> urlParses(config.baseUrl + "/eth/")
    ensures r.Ok? ==> r.value.baseUrl == config.baseUrl + "/eth/"
    ensures r.Err? ==> r.error == ClientError(BASE_URL_ERROR)
  {
    var url := config.baseUrl + "/eth/";
    if urlParses(url) then Ok(BeaconClient(url)) else Err(ClientError(BASE_URL_ERROR))
  }

  const BLOCKS_PATH := "v2/beacon/blocks/"
  const HEADERS_PATH := "v1/beacon/headers/"
  const VALIDATORS_PATH := "v1/beacon/states/head/validators/"
  const EVENTS_PATH := "v1/events?topics="

  function BlockUrl(client: BeaconClient, id: BlockId): string {
    client.baseUrl + BLOCKS_PATH + ToDetailedString(id)
  }

  function HeaderUrl(client: BeaconClient, id: BlockId): string {
    client.baseUrl + HEADERS_PATH + ToDetailedString(id)
  }

  function ValidatorUrl(client: BeaconClient, index: U64): string {
    client.baseUrl + VALIDATORS_PATH + ToDecimal(index)
  }

  /** `items.join(sep)`. */
  function Join(items: seq<string>, sep: char): string {
    if items == [] then ""
    else if |items| == 1 then items[0]
    else items[0] + [sep] + Join(items[1..], sep)
  }

  /** `s.split(sep)`: the pieces between separators, always at least one. */
  function Split(s: string, sep: char): (pieces: seq<string>)
    ensures |pieces| > 0
    decreases |s|
  {
    if s == [] then [""]
    else if s[0] == sep then [""] + Split(s[1..], sep)
    else var rest := Split(s[1..], sep); [[s[0]] + rest[0]] + rest[1..]
  }

  function TopicNames(topics: seq<Topic>): (names: seq<string>)
    ensures |names| == |topics|
    ensures forall i | 0 <= i < |topics| :: names[i] == TopicName(topics[i])
  {
    if topics == [] then [] else [TopicName(topics[0])] + TopicNames(topics[1..])
  }

  function EventsUrl(client: BeaconClient, topics: seq<Topic>): string {
    client.baseUrl + EVENTS_PATH + Join(TopicNames(topics), ',')
  }

  /** The `map(|res| match res { Some(r) => Some(r.data), None => None })`
      every getter applies to its `json_get!` result. */
  function UnwrapData<T>(res: Result<Option<Response<T>>, ClientError>): (r: Result<Option<T>, ClientError>)
    ensures r.Err? <==> res.Err?
    ensures r.Err? ==> r.error == res.error
    ensures r.Ok? ==> (r.value.Some? <==> res.value.Some?)
    ensures r.Ok? && r.value.Some? ==> r.value.value == res.value.value.data
  {
    match res
    case Err(e) => Err(e)
    case Ok(None) => Ok(None)
    case Ok(Some(resp)) => Ok(Some(resp.data))
  }

  function GetBlock(client: BeaconClient, id: BlockId, get: string -> Result<Option<Response<Block>>, ClientError>):
    Result<Option<Block>, ClientError>
  {
    UnwrapData(get(BlockUrl(client, id)))
  }

  function GetHeadValidator(client: BeaconClient, index: U64,
                            get: string -> Result<Option<Response<ValidatorContainer>>, ClientError>):
    Result<Option<ValidatorContainer>, ClientError>
  {
    UnwrapData(get(ValidatorUrl(client, index)))
  }

  function GetBlockHeader(client: BeaconClient, id: BlockId,
                          get: string -> Result<Option<Response<BlockHeader>>, ClientError>):
    Result<Option<BlockHeader>, ClientError>
  {
    UnwrapData(get(HeaderUrl(client, id)))
  }

  /** Two requests for blocks go to the same URL only for the same block. */
  lemma BlockUrlInjective(client: BeaconClient, a: BlockId, b: BlockId)
    requires BlockUrl(client, a) == BlockUrl(client, b)
    ensures a == b
  {
    var p := client.baseUrl + BLOCKS_PATH;
    assert ToDetailedString(a) == BlockUrl(client, a)[|p|..];
    assert ToDetailedString(b) == BlockUrl(client, b)[|p|..];
    FromStrToDetailedString(a);
    FromStrToDetailedString(b);
  }

  lemma HeaderUrlInjective(client: BeaconClient, a: BlockId, b: BlockId)
    requires HeaderUrl(client, a) == HeaderUrl(client, b)
    ensures a == b
  {
    var p := client.baseUrl + HEADERS_PATH;
    assert ToDetailedString(a) == HeaderUrl(client, a)[|p|..];
    assert ToDetailedString(b) == HeaderUrl(client, b)[|p|..];
    FromStrToDetailedString(a);
    FromStrToDetailedString(b);
  }

  /** A block request and a header request never share a URL. */
  lemma BlockAndHeaderUrlsDiffer(client: BeaconClient, a: BlockId, b: BlockId)
    ensures BlockUrl(client, a) != HeaderUrl(client, b)
  {
    var n := |client.baseUrl|;
    assert BlockUrl(client, a)[n + 1] == '2';
    assert HeaderUrl(client, b)[n + 1] == '1';
  }

  /** The validator index can be read back from the end of its URL. */
  lemma ValidatorUrlIndex(client: BeaconClient, index: U64)
    ensures var p := client.baseUrl + VALIDATORS_PATH;
            var url := ValidatorUrl(client, index);
            |p| <= |url| && ValueOf(url[|p|..]) == index
  {
    var p := client.baseUrl + VALIDATORS_PATH;
    assert ValidatorUrl(client, index)[|p|..] == ToDecimal(index);
    ValueOfToDecimal(index);
  }

  lemma {:induction false} SplitAppend(a: string, b: string, sep: char)
    requires sep !in a
    ensures Split(a + [sep] + b, sep) == [a] + Split(b, sep)
    decreases |a|
  {
    if a == [] {
      assert a + [sep] + b == [sep] + b;
    } else {
      assert a[0] != sep && a[0] == (a + [sep] + b)[0];
      assert (a + [sep] + b)[1..] == a[1..] + [sep] + b;
      SplitAppend(a[1..], b, sep);
      assert [a[0]] + a[1..] == a;
    }
  }

  lemma {:induction false} SplitNoSeparator(a: string, sep: char)
    requires sep !in a
    ensures Split(a, sep) == [a]
    decreases |a|
  {
    if a != [] {
      assert a[0] != sep;
      SplitNoSeparator(a[1..], sep);
      assert [a[0]] + a[1..] == a;
    }
  }

  /** Splitting a join recovers the items when none contains the separator. */
  lemma {:induction false} SplitJoin(items: seq<string>, sep: char)
    requires |items| > 0
    requires forall i | 0 <= i < |items| :: sep !in items[i]
    ensures Split(Join(items, sep), sep) == items
    decreases |items|
  {
    if |items| == 1 {
      SplitNoSeparator(items[0], sep);
    } else {
      SplitAppend(items[0], Join(items[1..], sep), sep);
      SplitJoin(items[1..], sep);
    }
  }

  /** The events query lists the topic names in the order given: splitting it
      on commas gives them back; with no topics the query is empty. */
  lemma EventsUrlTopics(client: BeaconClient, topics: seq<Topic>)
    ensures var p := client.baseUrl + EVENTS_PATH;
            var url := EventsUrl(client, topics);
            |p| <= |url|
            && (topics == [] ==> url == p)
            && (topics != [] ==> Split(url[|p|..], ',') == TopicNames(topics))
  {
    var p := client.baseUrl + EVENTS_PATH;
    var names := TopicNames(topics);
    assert EventsUrl(client, topics)[|p|..] == Join(names, ',');
    if topics == [] {
      assert Join(names, ',') == "";
    } else {
      forall i | 0 <= i < |names|
        ensures ',' !in names[i]
      {
      }
      SplitJoin(names, ',');
    }
  }
}
