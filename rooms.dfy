/**
 * The room picker's fetch: check the configuration, build the `GET /v1/rooms`
 * request, and turn the response into `rooms`, `error` and `isLoading`.
 * The HTTP exchange itself is an input: the request is returned and the
 * settled response is passed back in.
 */
module Rooms {
  import opened Wrappers
  import opened Json

  datatype Request = Request(httpMethod: string, url: string, headers: seq<(string, string)>)

  /** The body as `response.json()` settles: a parsed value, or a parse error's message. */
  datatype Body = Parsed(value: Value) | Unparsable(message: string)

  datatype Response = Response(status: int, statusText: string, body: Body)

  /** How `fetch` settled: a response, or a rejection with its error message. */
  datatype FetchOutcome = Received(response: Response) | NetworkFailure(message: string)

  const MissingConfigError: string := "Missing API URL or Key"
  const UnauthorizedError: string := "Unauthorized: Check API Key"
  const FetchFailedPrefix: string := "Failed to fetch rooms: "
  const InvalidFormatError: string := "Invalid API response format"
  const RoomsPath: string := "/v1/rooms"

  /** `response.ok`: a status in the range 200-299. */
  predicate StatusOk(status: int) { 200 <= status <= 299 }

  predicate EndsWithSlash(s: string) { |s| > 0 && s[|s| - 1] == '/' }

  /** `url.replace(/\/$/, "")`: drops one trailing slash, if there is one. */
  function StripTrailingSlash(url: string): (r: string)
    ensures EndsWithSlash(url) ==> r + "/" == url
    ensures !EndsWithSlash(url) ==> r == url
  {
    if EndsWithSlash(url) then url[..|url| - 1] else url
  }

  /** Only one slash goes: a URL ending in several keeps all but the last. */
  lemma StripRemovesOnlyOne()
    ensures StripTrailingSlash("a//") == "a/"
  {
  }

  /** Appending a slash and stripping it gives the URL back. */
  lemma StripUndoesSlash(url: string)
    ensures StripTrailingSlash(url + "/") == url
  {
  }

  /** The request target: the cleaned base URL followed by `/v1/rooms`. */
  function RoomsEndpoint(apiUrl: string): (r: string)
    ensures |r| >= |RoomsPath| && r[|r| - |RoomsPath|..] == RoomsPath
    ensures r[..|r| - |RoomsPath|] + (if EndsWithSlash(apiUrl) then "/" else "") == apiUrl
  {
    var base := StripTrailingSlash(apiUrl);
    assert (base + RoomsPath)[..|base|] == base;
    base + RoomsPath
  }

  /** A base URL with and without its trailing slash reach the same endpoint. */
  lemma EndpointIgnoresTrailingSlash(apiUrl: string)
    requires !EndsWithSlash(apiUrl)
    ensures RoomsEndpoint(apiUrl + "/") == RoomsEndpoint(apiUrl)
  {
  }

  function RoomsRequest(apiUrl: string, apiKey: string): (q: Request)
    ensures q.httpMethod == "GET" && q.url == RoomsEndpoint(apiUrl)
    ensures ("x-api-key", apiKey) in q.headers && ("Content-Type", "application/json") in q.headers
  {
    Request("GET", RoomsEndpoint(apiUrl), [("x-api-key", apiKey), ("Content-Type", "application/json")])
  }

  /** The `try` block and its `catch`: the rooms on success, else the message of the error thrown. */
  function Classify(outcome: FetchOutcome): (r: Result<seq<Value>, string>)
    ensures r.Ok? <==> outcome.Received? && StatusOk(outcome.response.status) &&
                       outcome.response.body.Parsed? && outcome.response.body.value.Array?
    ensures r.Ok? ==> r.value == outcome.response.body.value.items
    ensures outcome.NetworkFailure? ==> r == Err(outcome.message)
    ensures outcome.Received? && outcome.response.status == 401 ==> r == Err(UnauthorizedError)
    ensures outcome.Received? && !StatusOk(outcome.response.status) && outcome.response.status != 401 ==>
              r == Err(FetchFailedPrefix + outcome.response.statusText)
    ensures outcome.Received? && StatusOk(outcome.response.status) && outcome.response.body.Unparsable? ==>
              r == Err(outcome.response.body.message)
    ensures (outcome.Received? && StatusOk(outcome.response.status) &&
             outcome.response.body.Parsed? && !outcome.response.body.value.Array?) ==> r == Err(InvalidFormatError)
  {
    match outcome
    case NetworkFailure(message) => Err(message)
    case Received(response) =>
      if !StatusOk(response.status) then
        if response.status == 401 then Err(UnauthorizedError)
        else Err(FetchFailedPrefix + response.statusText)
      else
        match response.body
        case Unparsable(message) => Err(message)
        case Parsed(value) =>
          if value.Array? then Ok(value.items) else Err(InvalidFormatError)
  }

  /** The hook's state for one `apiUrl`/`apiKey` pair. */
  class RoomList {
    var apiUrl: string
    var apiKey: string
    var rooms: seq<Value>
    var isLoading: bool
    var error: Option<string>

    constructor (apiUrl: string, apiKey: string)
      ensures this.apiUrl == apiUrl && this.apiKey == apiKey
      ensures rooms == [] && !isLoading && error == None
    {
      this.apiUrl, this.apiKey := apiUrl, apiKey;
      rooms := [];
      isLoading := false;
      error := None;
    }

    /** New arguments to the hook; the state is kept. */
    method SetConfig(apiUrl: string, apiKey: string)
      modifies this
      ensures this.apiUrl == apiUrl && this.apiKey == apiKey
      ensures rooms == old(rooms) && isLoading == old(isLoading) && error == old(error)
    {
      this.apiUrl, this.apiKey := apiUrl, apiKey;
    }

    /** `fetchRooms()` up to its `await fetch(...)`: the request it sends, if any. */
    method StartFetch() returns (request: Option<Request>)
      modifies this
      ensures apiUrl == old(apiUrl) && apiKey == old(apiKey) && rooms == old(rooms)
      ensures request.None? <==> apiUrl == "" || apiKey == ""
      ensures request.None? ==> error == Some(MissingConfigError) && isLoading == old(isLoading)
      ensures request.Some? ==> request.value == RoomsRequest(apiUrl, apiKey) && isLoading && error == None
    {
      if apiUrl == "" || apiKey == "" {
        error := Some(MissingConfigError);
        return None;
      }
      isLoading := true;
      error := None;
      request := Some(RoomsRequest(apiUrl, apiKey));
    }

    /** The rest of `fetchRooms()` once the request settled, through its `catch` and `finally`. */
    method FinishFetch(outcome: FetchOutcome)
      modifies this
      ensures apiUrl == old(apiUrl) && apiKey == old(apiKey) && !isLoading
      ensures Classify(outcome).Ok? ==> rooms == Classify(outcome).value && error == old(error)
      ensures Classify(outcome).Err? ==> rooms == [] && error == Some(Classify(outcome).error)
    {
      match Classify(outcome) {
        case Ok(data) =>
          rooms := data;
        case Err(message) =>
          error := Some(message);
          rooms := [];
      }
      isLoading := false;
    }
  }
}
