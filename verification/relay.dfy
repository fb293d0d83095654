/**
 * A notification POST end to end: the receiver's walk, with the per-event
 * handler run for each selected change in turn. The result is the list of
 * outbound requests, in the order they are issued, and the reply.
 */
module Relay {
  import opened Wrappers
  import opened JsonValues
  import opened Settings
  import opened Selection
  import opened Envelope
  import opened Forwarder

  /** The network's answers: the lookup and forward outcomes of the n-th handler call of a POST. */
  datatype Network = Network(fetch: nat -> Fetch, deliver: nat -> Delivery)

  /** What one notification POST does: the outbound requests in issue order, and the reply. */
  datatype Exchange = Exchange(trace: seq<Request>, reply: Result<Reply, PyError>)

  /** The requests of handler calls `ds`, the first of them being call number `k` of the POST. */
  function HandleAll(cfg: Config, ds: seq<Dispatch>, net: Network, k: nat): seq<Request>
    decreases |ds|
  {
    if |ds| == 0 then []
    else HandleEvent(cfg, ds[0], net.fetch(k), net.deliver(k)) + HandleAll(cfg, ds[1..], net, k + 1)
  }

  /**
   * The notification endpoint: the receiver's reply, after the handler has
   * run once per dispatched event. Without an access token nothing goes out,
   * and a body that is not a page notification causes no request either.
   */
  function HandlePost(cfg: Config, data: Json, net: Network): (e: Exchange)
    ensures cfg.pageAccessToken == "" ==> e.trace == []
    ensures data.JObj? && Kind(data) != PageKind ==> e == Exchange([], Ok(Reply(200, IgnoredBody)))
    ensures !data.JObj? ==> e == Exchange([], Err(AttributeError))
    ensures e.reply.Ok? ==> e.reply.value.statusCode == 200
  {
    var x := Receive(data);
    var t := HandleAll(cfg, x.dispatched, net, 0);
    assert cfg.pageAccessToken == "" ==> t == [] by {
      if cfg.pageAccessToken == "" { HandleAllWithoutToken(cfg, x.dispatched, net, 0); }
    }
    Exchange(t, x.reply)
  }

  /** Without an access token no handler call issues any request. */
  lemma {:induction false} HandleAllWithoutToken(cfg: Config, ds: seq<Dispatch>, net: Network, k: nat)
    requires cfg.pageAccessToken == ""
    ensures HandleAll(cfg, ds, net, k) == []
    decreases |ds|
  {
    if |ds| > 0 {
      HandleAllWithoutToken(cfg, ds[1..], net, k + 1);
    }
  }

  /** The requests of consecutive runs of handler calls follow one another. */
  lemma {:induction false} HandleAllAppend(cfg: Config, ds1: seq<Dispatch>, ds2: seq<Dispatch>, net: Network, k: nat)
    ensures HandleAll(cfg, ds1 + ds2, net, k) == HandleAll(cfg, ds1, net, k) + HandleAll(cfg, ds2, net, k + |ds1|)
    decreases |ds1|
  {
    var ds := ds1 + ds2;
    if |ds1| == 0 {
      assert ds == ds2;
    } else {
      assert ds[0] == ds1[0];
      assert ds[1..] == ds1[1..] + ds2;
      var h := HandleEvent(cfg, ds1[0], net.fetch(k), net.deliver(k));
      calc {
        HandleAll(cfg, ds, net, k);
        h + HandleAll(cfg, ds1[1..] + ds2, net, k + 1);
        { HandleAllAppend(cfg, ds1[1..], ds2, net, k + 1); }
        h + (HandleAll(cfg, ds1[1..], net, k + 1) + HandleAll(cfg, ds2, net, k + |ds1|));
        (h + HandleAll(cfg, ds1[1..], net, k + 1)) + HandleAll(cfg, ds2, net, k + |ds1|);
        HandleAll(cfg, ds1, net, k) + HandleAll(cfg, ds2, net, k + |ds1|);
      }
    }
  }

  /** With a token and no forwarding URL, each handler call issues exactly its lookup GET. */
  lemma {:induction false} HandleAllLookupOnly(cfg: Config, ds: seq<Dispatch>, net: Network, k: nat)
    requires cfg.pageAccessToken != "" && cfg.forwardUrl == ""
    ensures |HandleAll(cfg, ds, net, k)| == |ds|
    ensures forall n :: 0 <= n < |ds| ==>
              HandleAll(cfg, ds, net, k)[n] == LookupRequest(cfg, ds[n])
    decreases |ds|
  {
    if |ds| > 0 {
      HandleAllLookupOnly(cfg, ds[1..], net, k + 1);
    }
  }

  /**
   * With a token and a forwarding URL, each handler call issues its lookup
   * GET and then the POST of its payload, built from its own lookup outcome.
   */
  lemma HandleAllLookupAndForward(cfg: Config, ds: seq<Dispatch>, net: Network, k: nat)
    requires cfg.pageAccessToken != "" && cfg.forwardUrl != ""
    ensures |HandleAll(cfg, ds, net, k)| == 2 * |ds|
    ensures forall n :: 0 <= n < |ds| ==>
              && HandleAll(cfg, ds, net, k)[2 * n] == LookupRequest(cfg, ds[n])
              && HandleAll(cfg, ds, net, k)[2 * n + 1] == ForwardRequest(cfg, ds[n], net.fetch(k + n))
  {
    HandleAllPairsLength(cfg, ds, net, k);
    forall n | 0 <= n < |ds|
      ensures && HandleAll(cfg, ds, net, k)[2 * n] == LookupRequest(cfg, ds[n])
              && HandleAll(cfg, ds, net, k)[2 * n + 1] == ForwardRequest(cfg, ds[n], net.fetch(k + n))
    {
      HandleAllPairAt(cfg, ds, net, k, n);
    }
  }

  /** With a token and a forwarding URL every dispatch issues exactly two requests. */
  lemma {:induction false} HandleAllPairsLength(cfg: Config, ds: seq<Dispatch>, net: Network, k: nat)
    requires cfg.pageAccessToken != "" && cfg.forwardUrl != ""
    ensures |HandleAll(cfg, ds, net, k)| == 2 * |ds|
    decreases |ds|
  {
    if |ds| > 0 {
      HandleAllPairsLength(cfg, ds[1..], net, k + 1);
    }
  }

  /** The n-th dispatch's lookup and forward sit at positions 2n and 2n + 1. */
  lemma {:induction false} HandleAllPairAt(cfg: Config, ds: seq<Dispatch>, net: Network, k: nat, n: nat)
    requires cfg.pageAccessToken != "" && cfg.forwardUrl != ""
    requires n < |ds|
    ensures 2 * n + 1 < |HandleAll(cfg, ds, net, k)|
    ensures HandleAll(cfg, ds, net, k)[2 * n] == LookupRequest(cfg, ds[n])
    ensures HandleAll(cfg, ds, net, k)[2 * n + 1] == ForwardRequest(cfg, ds[n], net.fetch(k + n))
    decreases |ds|
  {
    var t := HandleAll(cfg, ds, net, k);
    var h := HandleEvent(cfg, ds[0], net.fetch(k), net.deliver(k));
    var rest := HandleAll(cfg, ds[1..], net, k + 1);
    assert t == h + rest;
    assert |h| == 2;
    if n == 0 {
      assert t[0] == h[0] && t[1] == h[1];
    } else {
      var m := n - 1;
      HandleAllPairAt(cfg, ds[1..], net, k + 1, m);
      var d := ds[1..][m];
      assert d == ds[n];
      var f := net.fetch(k + 1 + m);
      assert f == net.fetch(k + n) by {
        assert k + 1 + m == k + n;
      }
      assert rest[2 * m + 1] == ForwardRequest(cfg, d, f);
      PairAfterHead(h, rest, m);
    }
  }

  /** Behind a two-element head, the pair at 2m of the rest sits at 2(m + 1). */
  lemma PairAfterHead<T>(h: seq<T>, rest: seq<T>, m: nat)
    requires |h| == 2 && 2 * m + 1 < |rest|
    ensures (h + rest)[2 * (m + 1)] == rest[2 * m]
    ensures (h + rest)[2 * (m + 1) + 1] == rest[2 * m + 1]
  {
  }

  /** Whether forwards succeed or fail changes none of the requests. */
  lemma {:induction false} HandleAllIgnoresDeliveries(
    cfg: Config, ds: seq<Dispatch>, fetch: nat -> Fetch, d1: nat -> Delivery, d2: nat -> Delivery, k: nat)
    ensures HandleAll(cfg, ds, Network(fetch, d1), k) == HandleAll(cfg, ds, Network(fetch, d2), k)
    decreases |ds|
  {
    if |ds| > 0 {
      HandleAllIgnoresDeliveries(cfg, ds[1..], fetch, d1, d2, k + 1);
      DeliveryUnobservable(cfg, ds[0], fetch(k), d1(k), d2(k));
    }
  }

  /**
   * The reply depends on the body alone: not on the configuration, and not on
   * what the lookups or forwards returned; forward outcomes change nothing.
   */
  lemma ReplyIgnoresNetwork(cfg1: Config, cfg2: Config, data: Json, net1: Network, net2: Network, d2: nat -> Delivery)
    ensures HandlePost(cfg1, data, net1).reply == HandlePost(cfg2, data, net2).reply
    ensures HandlePost(cfg1, data, net1) == HandlePost(cfg1, data, Network(net1.fetch, d2))
  {
    HandleAllIgnoresDeliveries(cfg1, Receive(data).dispatched, net1.fetch, net1.deliver, d2, 0);
  }

  /** A well-shaped page notification without a selected change is acknowledged ok and issues no request. */
  lemma NoLiveVideoNoRequests(cfg: Config, data: Json, net: Network)
    requires WellShapedBody(data) && Kind(data) == PageKind
    requires forall i, k :: 0 <= i < |EntriesOf(data)| && 0 <= k < |ChangesOf(EntriesOf(data)[i])| ==>
               !Selected(ChangesOf(EntriesOf(data)[i])[k])
    ensures HandlePost(cfg, data, net) == Exchange([], Ok(Reply(200, OkBody)))
  {
    var es := EntriesOf(data);
    ReceivePicks(data);
    forall i, k | 0 <= i < |PicksAll(es)| && 0 <= k < |PicksAll(es)[i]|
      ensures PicksAll(es)[i][k].None?
    {
      assert PicksAll(es)[i][k] == Pick(PageIdOf(es[i]), ChangesOf(es[i])[k]);
    }
    SomesAllNone(PicksAll(es));
  }

  /**
   * With an access token, a well-shaped page notification issues one lookup
   * GET per dispatched event, for that event's video, each followed by the
   * POST of its payload exactly when a forwarding URL is configured.
   */
  lemma RequestsPerDispatch(cfg: Config, data: Json, net: Network)
    requires cfg.pageAccessToken != ""
    ensures var ds := Receive(data).dispatched;
            var t := HandlePost(cfg, data, net).trace;
            cfg.forwardUrl != "" ==>
              && |t| == 2 * |ds|
              && forall n :: 0 <= n < |ds| ==>
                   t[2 * n] == LookupRequest(cfg, ds[n]) && t[2 * n + 1] == ForwardRequest(cfg, ds[n], net.fetch(n))
    ensures var ds := Receive(data).dispatched;
            var t := HandlePost(cfg, data, net).trace;
            cfg.forwardUrl == "" ==>
              && |t| == |ds|
              && forall n :: 0 <= n < |ds| ==> t[n] == LookupRequest(cfg, ds[n])
  {
    var ds := Receive(data).dispatched;
    assert HandlePost(cfg, data, net).trace == HandleAll(cfg, ds, net, 0);
    if cfg.forwardUrl != "" {
      HandleAllLookupAndForward(cfg, ds, net, 0);
    } else {
      HandleAllLookupOnly(cfg, ds, net, 0);
    }
  }

  /** A live-video change announcing video `V1` with status `LIVE`. */
  function SampleChange(): Json {
    JObj([("field", JStr("live_videos")), ("value", JObj([("id", JStr("V1")), ("status", JStr("LIVE"))]))])
  }

  /** An entry for page `P1` holding the sample change. */
  function SampleEntry(): Json {
    JObj([("id", JStr("P1")), ("changes", JArr([SampleChange()]))])
  }

  /** A page notification holding the sample entry. */
  function SampleNotification(): Json {
    JObj([("object", JStr("page")), ("entry", JArr([SampleEntry()]))])
  }

  /** The sample change is well shaped and selected. */
  lemma SampleChangeSelected()
    ensures WellShapedChange(SampleChange())
    ensures Pick(JStr("P1"), SampleChange()) == Some(Dispatch(JStr("P1"), JStr("V1"), JStr("LIVE")))
  {
    var value := JObj([("id", JStr("V1")), ("status", JStr("LIVE"))]);
    assert ValueOf(SampleChange()) == value;
    assert VideoIdOf(SampleChange()) == JStr("V1");
    assert StatusOf(SampleChange()) == JStr("LIVE");
  }

  /** The sample entry is well shaped, for page `P1`, with the sample change alone. */
  lemma SampleEntryShape()
    ensures WellShapedEntry(SampleEntry())
    ensures PageIdOf(SampleEntry()) == JStr("P1")
    ensures ChangesOf(SampleEntry()) == [SampleChange()]
  {
    SampleChangeSelected();
  }

  /** The sample notification is a well-shaped page notification holding the sample entry alone. */
  lemma SampleBodyShape()
    ensures Kind(SampleNotification()) == PageKind
    ensures EntriesOf(SampleNotification()) == [SampleEntry()]
    ensures WellShapedBody(SampleNotification())
  {
    SampleEntryShape();
  }

  /** The receiver acknowledges the sample notification ok after one handler call for `P1`, `V1`, `LIVE`. */
  lemma SampleReceived()
    ensures Receive(SampleNotification())
            == Extraction([Dispatch(JStr("P1"), JStr("V1"), JStr("LIVE"))], Ok(Reply(200, OkBody)))
  {
    SampleBodyShape();
    SampleEntryShape();
    SampleChangeSelected();
    ReceivePicks(SampleNotification());
    var d := Dispatch(JStr("P1"), JStr("V1"), JStr("LIVE"));
    assert Picks(JStr("P1"), [SampleChange()]) == [Some(d)];
    assert PicksAll([SampleEntry()]) == [[Some(d)]];
    assert SomesAll([[Some(d)]]) == [d];
  }

  /**
   * With a token and a forwarding URL the sample notification issues one GET
   * for `V1`, then one POST carrying `P1`, `V1` and `LIVE`, and is
   * acknowledged ok.
   */
  lemma SampleNotificationRelayed(cfg: Config, net: Network)
    requires cfg.pageAccessToken != "" && cfg.forwardUrl != ""
    ensures HandlePost(cfg, SampleNotification(), net) == Exchange(
              [ GraphGet(GraphBase, JStr("V1"), GraphParams(cfg.pageAccessToken)),
                Forward(cfg.forwardUrl, Dispatch(JStr("P1"), JStr("V1"), JStr("LIVE")), net.fetch(0)) ],
              Ok(Reply(200, OkBody)))
  {
    SampleReceived();
    var d := Dispatch(JStr("P1"), JStr("V1"), JStr("LIVE"));
    assert HandleAll(cfg, [d], net, 0) == HandleEvent(cfg, d, net.fetch(0), net.deliver(0)) + HandleAll(cfg, [], net, 1);
  }
}
