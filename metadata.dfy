/** `MetadataService` (src/sparc/client/services/metadata.py): a REST wrapper around the
    SciCrunch Elasticsearch endpoint. Its state is three fields, the API key, the
    profile name and `host_api`; the search calls build URLs by string concatenation and
    classify the HTTP outcome. The network itself is a parameter: the outcome of a
    request is given, not performed. */
module Metadata {
  import opened PyRuntime
  import opened PyStrings
  import opened ConfigStore

  const DefaultHost := "https://scicrunch.org/api/1/elastic"
  const SearchHost := "https://scicrunch.org/api/1/elastic/SPARC_Algolia_pr/_search"

  type Headers = map<string, string>

  const DefaultHeaders: Headers := map[
    "Content-Type" := "application/json",
    "Accept" := "application/json; charset=utf-8"]

  const DefaultLimit := 10
  const DefaultOffset := 0

  /** A decoded JSON document. */
  datatype Json =
    | JNull
    | JBool(b: bool)
    | JNumber(n: int)
    | JString(s: string)
    | JArray(items: seq<Json>)
    | JObject(fields: map<string, Json>)

  /** How a request ended: a response (its status, and its body decoded as JSON, `None`
      when the body is not JSON), or one of the `requests` exceptions. */
  datatype HttpOutcome =
    | Response(status: int, body: Option<Json>)
    | ConnectionFailed
    | TimedOut
    | OtherRequestError

  /** `success == 1` after the try block: a response whose status is 410, or one that
      `raise_for_status` lets through (no 4xx or 5xx status). */
  predicate RequestSucceeded(o: HttpOutcome) {
    o.Response? && (o.status == 410 || !(400 <= o.status < 600))
  }

  lemma SuccessClassification(o: HttpOutcome)
    ensures o.Response? && o.status == 410 ==> RequestSucceeded(o)
    ensures o.Response? && o.status != 410 ==> (RequestSucceeded(o) <==> o.status < 400 || o.status >= 600)
    ensures !o.Response? ==> !RequestSucceeded(o)
  {
  }

  /** The tail of `getURL`/`postURL` as written: on failure `result` is the dict `{}`,
      which has no `.json()` method. */
  function ReadResponseAsWritten(o: HttpOutcome): (r: Result<Json>)
    ensures !RequestSucceeded(o) ==> r == Err(AttributeError("json"))
    ensures RequestSucceeded(o) ==> (r.Ok? <==> o.body.Some?)
    ensures RequestSucceeded(o) && r.Ok? ==> r.value == o.body.value
    ensures RequestSucceeded(o) && r.Err? ==> r.error == JSONDecodeError
  {
    if !RequestSucceeded(o) then Err(AttributeError("json"))
    else if o.body.None? then Err(JSONDecodeError)
    else Ok(o.body.value)
  }

  /** A failed request does not return the empty result it was meant to: it raises. */
  lemma FailedRequestRaises()
    ensures ReadResponseAsWritten(ConnectionFailed) == Err(AttributeError("json"))
    ensures ReadResponseAsWritten(Response(500, Some(JNull))) == Err(AttributeError("json"))
  {
  }

  /** The tail as evidently intended: a failed request yields the empty JSON object. */
  function ReadResponse(o: HttpOutcome): (r: Result<Json>)
    ensures !RequestSucceeded(o) ==> r == Ok(JObject(map[]))
    ensures RequestSucceeded(o) ==> r == ReadResponseAsWritten(o)
    ensures r.Err? ==> r.error == JSONDecodeError
  {
    if !RequestSucceeded(o) then Ok(JObject(map[])) else ReadResponseAsWritten(o)
  }

  /** The corrected tail never raises for a request failure, and agrees with the code
      as written whenever the request succeeded. */
  lemma ReadResponseCorrects(o: HttpOutcome)
    ensures ReadResponse(o) != Err(AttributeError("json"))
    ensures ReadResponse(o) != ReadResponseAsWritten(o) <==> !RequestSucceeded(o)
  {
  }

  /** The body argument of `postURL`: a Python dict, a JSON string together with what
      `json.loads` makes of it (`None`: it raises), or any other object. */
  datatype QueryBody =
    | DictBody(fields: map<string, Json>)
    | TextBody(text: string, parsed: Option<Json>)
    | OtherBody

  /** `body_json` after the first try block; when `json.loads` raised, the bare `except`
      swallowed it and the later use of the unbound local raises. */
  function PrepareBody(body: QueryBody): (r: Result<Json>)
    ensures r.Err? <==> (body.TextBody? && body.parsed.None?) || body.OtherBody?
    ensures r.Err? ==> r.error == UnboundLocalError("body_json")
    ensures body.DictBody? ==> r == Ok(JObject(body.fields))
    ensures body.TextBody? && r.Ok? ==> r.value == body.parsed.value
  {
    match body
    case DictBody(fields) => Ok(JObject(fields))
    case TextBody(_, parsed) => if parsed.Some? then Ok(parsed.value) else Err(UnboundLocalError("body_json"))
    case OtherBody => Err(UnboundLocalError("body_json"))
  }

  /** The default query of `search_datasets`, with its decoding. */
  const DefaultQuery := TextBody(
    "{\"query\": { \"match_all\": {}}}",
    Some(JObject(map["query" := JObject(map["match_all" := JObject(map[])])])))

  /** A dict body and a query text that decodes to that dict post the same JSON. */
  lemma BodyFormsAgree(fields: map<string, Json>, text: string)
    ensures PrepareBody(TextBody(text, Some(JObject(fields)))) == PrepareBody(DictBody(fields))
    ensures PrepareBody(DictBody(fields)).Ok?
  {
  }

  /** The default query posts `{"query": {"match_all": {}}}`. */
  lemma DefaultQueryMatchesAll()
    ensures PrepareBody(DefaultQuery) == Ok(JObject(map["query" := JObject(map["match_all" := JObject(map[])])]))
  {
  }

  const ListPrefix := SearchHost + "?from="
  const SearchPrefix := SearchHost + "?key="

  /** The query part of the list URL, after `?from=`. */
  function ListQuery(offset: int, limit: int, key: string): string {
    IntToStr(offset) + "&size=" + IntToStr(limit) + "&key=" + key
  }

  /** The URL of `list_datasets`; a `None` key makes the concatenation raise. */
  function ListUrl(offset: int, limit: int, key: Option<string>): (r: Result<string>)
    ensures r.Err? <==> key.None?
    ensures r.Err? ==> r.error == TypeError(ConcatNoneMessage)
    ensures r.Ok? ==> StartsWith(r.value, ListPrefix)
  {
    if key.None? then Err(TypeError(ConcatNoneMessage))
    else
      PrefixThenRest(ListPrefix, ListQuery(offset, limit, key.value));
      Ok(ListPrefix + ListQuery(offset, limit, key.value))
  }

  /** Reads offset, limit and key back out of a `list_datasets` URL. */
  function ParseListUrl(u: string): Option<(int, int, string)> {
    if StartsWith(u, ListPrefix) then ParseListQuery(u[|ListPrefix|..]) else None
  }

  /** Reads `<offset>&size=<limit>&key=<key>`. */
  function ParseListQuery(q: string): Option<(int, int, string)> {
    match SplitOnce(q, '&')
    case None => None
    case Some(p1) =>
      if !StartsWith(p1.1, "size=") then None
      else match SplitOnce(p1.1[5..], '&')
        case None => None
        case Some(p2) =>
          if !StartsWith(p2.1, "key=") then None
          else match (ParseInt(p1.0), ParseInt(p2.0))
            case (Some(o), Some(l)) => Some((o, l, p2.1[4..]))
            case _ => None
  }

  lemma PrefixThenRest(p: string, x: string)
    ensures StartsWith(p + x, p) && (p + x)[|p|..] == x
  {
    assert (p + x)[..|p|] == p;
  }

  /** Splitting `a&<rest>` at the first '&' when `a` holds none. */
  lemma SplitAtAmpersand(a: string, rest: string)
    requires '&' !in a
    ensures SplitOnce(a + "&" + rest, '&') == Some((a, rest))
  {
    assert a + "&" + rest == a + ['&'] + rest;
    SplitOnceAt(a, '&', rest);
  }

  lemma ListQueryRoundTrip(offset: int, limit: int, key: string)
    ensures ParseListQuery(ListQuery(offset, limit, key)) == Some((offset, limit, key))
  {
    var o := IntToStr(offset);
    var l := IntToStr(limit);
    var tail2 := "key=" + key;
    var tail1 := "size=" + (l + "&" + tail2);
    assert ListQuery(offset, limit, key) == o + "&" + tail1;
    assert SplitOnce(o + "&" + tail1, '&') == Some((o, tail1)) by {
      SplitAtAmpersand(o, tail1);
    }
    assert StartsWith(tail1, "size=") && tail1[5..] == l + "&" + tail2 by {
      PrefixThenRest("size=", l + "&" + tail2);
    }
    assert SplitOnce(l + "&" + tail2, '&') == Some((l, tail2)) by {
      SplitAtAmpersand(l, tail2);
    }
    assert StartsWith(tail2, "key=") && tail2[4..] == key by {
      PrefixThenRest("key=", key);
    }
    assert ParseInt(o) == Some(offset) by {
      IntToStrRoundTrip(offset);
    }
    assert ParseInt(l) == Some(limit) by {
      IntToStrRoundTrip(limit);
    }
  }

  /** The list URL carries exactly the requested offset, limit and key, whatever the
      key contains. */
  lemma ListUrlRoundTrip(offset: int, limit: int, key: string)
    ensures ListUrl(offset, limit, Some(key)).Ok?
    ensures ParseListUrl(ListUrl(offset, limit, Some(key)).value) == Some((offset, limit, key))
  {
    var q := ListQuery(offset, limit, key);
    PrefixThenRest(ListPrefix, q);
    ListQueryRoundTrip(offset, limit, key);
  }

  /** The URL of `search_datasets`. */
  function SearchUrl(key: Option<string>): (r: Result<string>)
    ensures r.Err? <==> key.None?
    ensures r.Err? ==> r.error == TypeError(ConcatNoneMessage)
    ensures r.Ok? ==> StartsWith(r.value, SearchPrefix) && r.value[|SearchPrefix|..] == key.value
  {
    if key.None? then Err(TypeError(ConcatNoneMessage)) else Ok(SearchPrefix + key.value)
  }

  /** A request handed to the session: `headers` is `None` when the "NONE" default is kept. */
  datatype Request =
    | Get(url: string, headers: Option<Headers>)
    | Post(url: string, json: Json, headers: Option<Headers>)

  class MetadataService {
    var scicrunchApiKey: Option<string>
    var profileName: Option<string>
    var hostApi: string

    constructor Blank()
      ensures scicrunchApiKey == None && profileName == None && hostApi == DefaultHost
    {
      scicrunchApiKey := None;
      profileName := None;
      hostApi := DefaultHost;
    }

    /** `MetadataService(config=None, connect=False)`. With a config the two options are read with
        `.get` (missing: `None`); a missing profile name then fails the string
        concatenation in the log message. Without a config both stay `None`. */
    static method Create(config: Option<Section> := None, connect: bool := false) returns (r: Result<MetadataService>)
      ensures r.Err? <==> config.Some? && "pennsieve_profile_name" !in config.value
      ensures r.Err? ==> r.error == TypeError(ConcatNoneMessage)
      ensures r.Ok? ==> fresh(r.value) && r.value.hostApi == DefaultHost
      ensures r.Ok? && config.None? ==> r.value.scicrunchApiKey == None && r.value.profileName == None
      ensures r.Ok? && config.Some? ==>
        && r.value.scicrunchApiKey == MapGet(config.value, "scicrunch_api_key")
        && r.value.profileName == MapGet(config.value, "pennsieve_profile_name")
    {
      var s := new MetadataService.Blank();
      if config.Some? {
        s.scicrunchApiKey := MapGet(config.value, "scicrunch_api_key");
        s.profileName := MapGet(config.value, "pennsieve_profile_name");
        if s.profileName.None? {
          return Err(TypeError(ConcatNoneMessage));
        }
      }
      if connect {
        var _ := s.Connect();
      }
      return Ok(s);
    }

    /** `connect()`: resets `host_api` to the default endpoint and returns it. */
    method Connect() returns (r: string)
      modifies this
      ensures hostApi == DefaultHost && r == DefaultHost
      ensures scicrunchApiKey == old(scicrunchApiKey) && profileName == old(profileName)
    {
      hostApi := DefaultHost;
      r := hostApi;
    }

    /** `info()`: the same reset as `connect()`. */
    method Info() returns (r: string)
      modifies this
      ensures hostApi == DefaultHost && r == DefaultHost
      ensures scicrunchApiKey == old(scicrunchApiKey) && profileName == old(profileName)
    {
      hostApi := DefaultHost;
      r := hostApi;
    }

    /** `get_profile()`: the API key currently in use. */
    function GetProfile(): Option<string>
      reads this
    {
      scicrunchApiKey
    }

    /** `set_profile(api_key)`: stores the key and returns it; `get_profile()` then
        returns it too. */
    method SetProfile(apiKey: string) returns (r: string)
      modifies this
      ensures r == apiKey && GetProfile() == Some(apiKey)
      ensures hostApi == old(hostApi) && profileName == old(profileName)
    {
      scicrunchApiKey := Some(apiKey);
      r := apiKey;
    }

    /** `close()`: returns the current `host_api` and changes nothing. */
    function Close(): string
      reads this
    {
      hostApi
    }

    /** `list_datasets(limit, offset)`: switches `host_api` to the search endpoint (even
        when the key is missing and the URL cannot be built), then GETs the list URL with
        the default headers. `request` is what was sent, if anything. */
    method ListDatasets(outcome: HttpOutcome, limit: int := DefaultLimit, offset: int := DefaultOffset) returns (request: Option<Request>, r: Result<Json>)
      modifies this
      ensures hostApi == SearchHost && Close() == SearchHost
      ensures scicrunchApiKey == old(scicrunchApiKey) && profileName == old(profileName)
      ensures scicrunchApiKey.None? ==> request.None? && r == Err(TypeError(ConcatNoneMessage))
      ensures scicrunchApiKey.Some? ==>
        && request == Some(Get(ListUrl(offset, limit, scicrunchApiKey).value, Some(DefaultHeaders)))
        && ParseListUrl(request.value.url) == Some((offset, limit, scicrunchApiKey.value))
        && r == ReadResponse(outcome)
    {
      hostApi := SearchHost;
      var url := ListUrl(offset, limit, scicrunchApiKey);
      if url.Err? {
        return None, Err(url.error);
      }
      ListUrlRoundTrip(offset, limit, scicrunchApiKey.value);
      request := Some(Get(url.value, Some(DefaultHeaders)));
      r := ReadResponse(outcome);
    }

    /** `search_datasets(query)`: switches `host_api` to the search endpoint, builds the
        key URL, decodes the body, then POSTs it with the default headers. */
    method SearchDatasets(outcome: HttpOutcome, query: QueryBody := DefaultQuery) returns (request: Option<Request>, r: Result<Json>)
      modifies this
      ensures hostApi == SearchHost && Close() == SearchHost
      ensures scicrunchApiKey == old(scicrunchApiKey) && profileName == old(profileName)
      ensures scicrunchApiKey.None? ==> request.None? && r == Err(TypeError(ConcatNoneMessage))
      ensures scicrunchApiKey.Some? && PrepareBody(query).Err? ==>
        request.None? && r == Err(UnboundLocalError("body_json"))
      ensures scicrunchApiKey.Some? && PrepareBody(query).Ok? ==>
        && request == Some(Post(SearchUrl(scicrunchApiKey).value, PrepareBody(query).value, Some(DefaultHeaders)))
        && r == ReadResponse(outcome)
    {
      hostApi := SearchHost;
      var url := SearchUrl(scicrunchApiKey);
      if url.Err? {
        return None, Err(url.error);
      }
      var body := PrepareBody(query);
      if body.Err? {
        return None, Err(body.error);
      }
      request := Some(Post(url.value, body.value, Some(DefaultHeaders)));
      r := ReadResponse(outcome);
    }
  }

  /** `set_profile(k)` followed by `get_profile()` returns `k`, and `close()` after
      either search returns the search endpoint while `connect()`/`info()` restore the
      default one. */
  method FieldStateMachine(s: MetadataService, k: string, outcome: HttpOutcome) returns (got: Option<string>, closed: seq<string>)
    modifies s
    ensures got == Some(k)
    ensures closed == [SearchHost, DefaultHost, DefaultHost, SearchHost, SearchHost]
  {
    var _ := s.SetProfile(k);
    got := s.GetProfile();
    var _, _ := s.ListDatasets(outcome);
    var c1 := s.Close();
    var _ := s.Connect();
    var c2 := s.Close();
    var _ := s.Info();
    var c3 := s.Close();
    var _, _ := s.SearchDatasets(outcome);
    var c4 := s.Close();
    var c5 := s.Close();
    closed := [c1, c2, c3, c4, c5];
  }
}
