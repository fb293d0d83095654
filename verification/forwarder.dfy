/**
 * The per-event handler: with a page access token configured it looks the
 * video up on the Graph API, assembles the outbound payload from the event
 * and whatever the lookup returned, and posts it to the forwarding URL when
 * one is configured. The network is abstract: the lookup's and the post's
 * outcomes are parameters, and the result is the list of requests issued.
 */
module Forwarder {
  import opened Wrappers
  import opened JsonValues
  import opened Settings
  import opened Envelope

  /** The outcome of the Graph API lookup: the members of the JSON object it returned, or any failure. */
  datatype Fetch = Fetched(members: seq<(string, Json)>) | FetchFailed

  /** The outcome of the forward POST: a response, or an exception. The handler only logs it. */
  datatype Delivery = Delivered(statusCode: int, text: string) | DeliveryFailed

  /** The flat payload posted to the forwarding URL. */
  datatype Payload = Payload(
    pageId: Json,
    liveVideoId: Json,
    status: Json,
    permalinkUrl: Json,
    title: Json,
    description: Json,
    creationTime: Json)
  {
    /** The JSON object that is posted, with the keys in the order the handler writes them. */
    function ToJson(): Json {
      JObj([
        ("page_id", pageId),
        ("live_video_id", liveVideoId),
        ("status", status),
        ("permalink_url", permalinkUrl),
        ("title", title),
        ("description", description),
        ("creation_time", creationTime)])
    }
  }

  /** The keys of the posted object, in the order the handler writes them. */
  const PayloadKeys: seq<string> :=
    ["page_id", "live_video_id", "status", "permalink_url", "title", "description", "creation_time"]

  /** The payload a receiving endpoint reads back from a posted JSON object, if it has all seven keys. */
  function PayloadFromJson(j: Json): Option<Payload> {
    if !j.JObj? then None
    else
      var vs := seq(|PayloadKeys|, n requires 0 <= n < |PayloadKeys| => Lookup(j.members, PayloadKeys[n]));
      if forall n :: 0 <= n < |vs| ==> vs[n].Some? then
        Some(Payload(vs[0].value, vs[1].value, vs[2].value, vs[3].value, vs[4].value, vs[5].value, vs[6].value))
      else
        None
  }

  /** The posted object carries every payload field under its own key, and reads back as the same payload. */
  lemma PayloadRoundTrip(p: Payload)
    ensures PayloadFromJson(p.ToJson()) == Some(p)
  {
    var ms := p.ToJson().members;
    forall n | 0 <= n < |PayloadKeys|
      ensures ms[n].0 == PayloadKeys[n] && Lookup(ms, PayloadKeys[n]) == Some(ms[n].1)
    {
      LookupUniqueKey(ms, n);
    }
  }

  /** An outbound request. */
  datatype Request =
      /** GET `base`/`videoId` with the query parameters `params`, in order. */
    | GraphGet(base: string, videoId: Json, params: seq<(string, string)>)
      /** POST to `url` of the payload built from `event` and the outcome of its lookup (see `Body`). */
    | Forward(url: string, event: Dispatch, lookup: Fetch)
  {
    /** The URL requested, where it is determined: a GET to a string video id, or any POST. */
    function Url(): Option<string> {
      match this
      case GraphGet(base, videoId, _) => if videoId.JStr? then Some(base + "/" + videoId.s) else None
      case Forward(url, _, _) => Some(url)
    }

    /** The JSON object a forward POST sends. */
    function Body(): Json
      requires Forward?
    {
      BuildPayload(event, lookup).ToJson()
    }
  }

  /** The Graph API query parameters: the fixed field selection and the access token. */
  function GraphParams(accessToken: string): seq<(string, string)> {
    [("fields", GraphFields), ("access_token", accessToken)]
  }

  /** The lookup's result as the handler uses it: an empty object when the lookup failed. */
  function LiveData(f: Fetch): seq<(string, Json)> {
    match f
    case Fetched(ms) => ms
    case FetchFailed => []
  }

  /**
   * The payload for one event: page id, video id and status as received,
   * the four enrichment fields as the lookup returned them (null when absent
   * or when the lookup failed).
   */
  function BuildPayload(d: Dispatch, f: Fetch): (p: Payload)
    ensures p.pageId == d.pageId && p.liveVideoId == d.videoId && p.status == d.status
    ensures f.FetchFailed? ==> p.permalinkUrl == JNull && p.title == JNull && p.description == JNull && p.creationTime == JNull
    ensures f.Fetched? && !HasKey(f.members, "permalink_url") ==> p.permalinkUrl == JNull
    ensures f.Fetched? && !HasKey(f.members, "title") ==> p.title == JNull
    ensures f.Fetched? && !HasKey(f.members, "description") ==> p.description == JNull
    ensures f.Fetched? && !HasKey(f.members, "creation_time") ==> p.creationTime == JNull
  {
    var liveData := LiveData(f);
    Payload(
      d.pageId, d.videoId, d.status,
      Lookup(liveData, "permalink_url").GetOr(JNull),
      Lookup(liveData, "title").GetOr(JNull),
      Lookup(liveData, "description").GetOr(JNull),
      Lookup(liveData, "creation_time").GetOr(JNull))
  }

  /**
   * A present enrichment field is the value of the last member the lookup
   * returned under that field's key, the one the decoded dict keeps.
   */
  lemma EnrichmentFromLookup(d: Dispatch, ms: seq<(string, Json)>)
    ensures var p := BuildPayload(d, Fetched(ms));
            && (HasKey(ms, "permalink_url") ==>
                  exists i :: 0 <= i < |ms| && ms[i] == ("permalink_url", p.permalinkUrl)
                              && forall j :: i < j < |ms| ==> ms[j].0 != "permalink_url")
            && (HasKey(ms, "title") ==>
                  exists i :: 0 <= i < |ms| && ms[i] == ("title", p.title)
                              && forall j :: i < j < |ms| ==> ms[j].0 != "title")
            && (HasKey(ms, "description") ==>
                  exists i :: 0 <= i < |ms| && ms[i] == ("description", p.description)
                              && forall j :: i < j < |ms| ==> ms[j].0 != "description")
            && (HasKey(ms, "creation_time") ==>
                  exists i :: 0 <= i < |ms| && ms[i] == ("creation_time", p.creationTime)
                              && forall j :: i < j < |ms| ==> ms[j].0 != "creation_time")
  {
    LookupLastWins(ms, "permalink_url");
    LookupLastWins(ms, "title");
    LookupLastWins(ms, "description");
    LookupLastWins(ms, "creation_time");
  }

  /** The Graph API lookup GET for an event's video. */
  function LookupRequest(cfg: Config, d: Dispatch): Request {
    GraphGet(GraphBase, d.videoId, GraphParams(cfg.pageAccessToken))
  }

  /** The forward POST of an event's payload, enriched from the lookup's outcome. */
  function ForwardRequest(cfg: Config, d: Dispatch, fetched: Fetch): Request {
    Forward(cfg.forwardUrl, d, fetched)
  }

  /**
   * The requests one handler call issues: none without an access token;
   * otherwise the lookup GET, then the forward POST when a forwarding URL is
   * configured. The forward's outcome is swallowed.
   */
  function HandleEvent(cfg: Config, d: Dispatch, fetched: Fetch, delivered: Delivery): (t: seq<Request>)
    ensures t == [] <==> cfg.pageAccessToken == ""
    ensures cfg.pageAccessToken != "" ==> |t| == (if cfg.forwardUrl != "" then 2 else 1)
    ensures cfg.pageAccessToken != "" ==>
              t[0].GraphGet? && t[0].base == GraphBase && t[0].videoId == d.videoId
              && t[0].params == GraphParams(cfg.pageAccessToken)
    ensures |t| == 2 ==> t[1].Forward? && t[1].url == cfg.forwardUrl && t[1].event == d && t[1].lookup == fetched
  {
    if cfg.pageAccessToken == "" then []
    else if cfg.forwardUrl != "" then [LookupRequest(cfg, d), ForwardRequest(cfg, d, fetched)]
    else [LookupRequest(cfg, d)]
  }

  /**
   * The forward POST sends the payload for its event: read back by the
   * receiving endpoint it gives the event's page id, video id and status and
   * the enrichment the lookup returned.
   */
  lemma ForwardBodyReadsBack(cfg: Config, d: Dispatch, f: Fetch, x: Delivery)
    requires cfg.pageAccessToken != "" && cfg.forwardUrl != ""
    ensures var t := HandleEvent(cfg, d, f, x);
            && t[1].Forward?
            && PayloadFromJson(t[1].Body()) == Some(BuildPayload(d, f))
            && PayloadFromJson(t[1].Body()).value.pageId == d.pageId
            && PayloadFromJson(t[1].Body()).value.liveVideoId == d.videoId
            && PayloadFromJson(t[1].Body()).value.status == d.status
  {
    PayloadRoundTrip(BuildPayload(d, f));
  }

  /** The lookup GET for a string video id requests the Graph API base, a slash, and the id. */
  lemma LookupUrl(cfg: Config, d: Dispatch, f: Fetch, x: Delivery)
    requires cfg.pageAccessToken != "" && d.videoId.JStr?
    ensures HandleEvent(cfg, d, f, x)[0].Url() == Some(GraphBase + "/" + d.videoId.s)
  {
  }

  /** A failed lookup is handled like a lookup that returned an empty object: the same requests, posting the same body. */
  lemma FailedLookupReadsAsEmpty(cfg: Config, d: Dispatch, delivered: Delivery)
    ensures var t1 := HandleEvent(cfg, d, FetchFailed, delivered);
            var t2 := HandleEvent(cfg, d, Fetched([]), delivered);
            && |t1| == |t2|
            && (|t1| > 0 ==> t1[0] == t2[0])
            && (|t1| == 2 ==> t1[1].Body() == t2[1].Body())
  {
  }

  /** Whether the forward succeeded or failed changes nothing the handler does. */
  lemma DeliveryUnobservable(cfg: Config, d: Dispatch, f: Fetch, x: Delivery, y: Delivery)
    ensures HandleEvent(cfg, d, f, x) == HandleEvent(cfg, d, f, y)
  {
  }
}
