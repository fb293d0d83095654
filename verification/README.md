# Live-video webhook relay, modelled in Dafny

The relay is a small web service between a social platform and an
automation endpoint. It has three pieces of decision logic, and this project
models and proves all three.

- **Subscription handshake** (`GET /fb-webhook`). The platform sends a mode, a
  verify token and a challenge. The endpoint echoes the challenge with status
  200 when the mode is `subscribe` and the token is the configured secret.
  Otherwise it answers `Verification failed` with status 403.
- **Event receiver** (`POST /fb-webhook`). The decoded JSON body is walked
  entry by entry and change by change. Every `live_videos` change whose value
  carries a truthy id calls the per-event handler with the entry's page id and
  the change's video id and status. A body of another kind is acknowledged as
  `ignored`, and a page notification as `ok`.
- **Per-event handler**. Without a page access token it does nothing.
  Otherwise it looks the video up on the Graph API and falls back to an empty
  object when the lookup fails. It builds a flat payload from the event and the
  lookup, and posts it to the forwarding URL when one is configured.

The modules follow that structure:

- `wrappers.dfy`: `Option` and `Result`.
- `json.dfy` (`JsonValues`): decoded JSON values and the three Python
  operations the handlers use without type checks:
  - `dict.get(k, default)`, with the last-wins reading of repeated keys;
  - truthiness;
  - `for` iteration.
  Together with these go the two exceptions Python raises on wrongly shaped
  values: `AttributeError` and `TypeError`.
- `settings.dfy` (`Settings`): the configuration as one immutable record,
  plus the Graph API base and field-selection constants.
- `handshake.dfy` (`Handshake`): the handshake decision, the endpoint as
  declared, and the endpoint as evidently intended (see Findings).
- `selection.dfy` (`Selection`): a generic theory of keeping the present
  values of nested option lists. It covers the positions of the kept values,
  their order, and their completeness.
- `envelope.dfy` (`Envelope`): the receiver's walk. The walk is modelled step
  by step with its exceptions, and is compared against a reference: each
  change's pick, with the present picks kept in order.
- `forwarder.dfy` (`Forwarder`): the per-event handler. It returns the trace
  of outbound requests it issues.
- `relay.dfy` (`Relay`): a notification POST end to end, meaning the
  receiver's walk with the handler run once per dispatch. It includes a
  worked sample notification.

The network is abstract. The n-th handler call of a POST sees lookup outcome
`fetch(n)`: either the members of the returned JSON object, or a failure. It
also sees forward outcome `deliver(n)`. A forward request carries its event
and its lookup outcome, and `Request.Body()` is the JSON object it posts.
When Python would raise on a wrongly shaped body, the model returns the
exception instead of a reply. The framework turns that exception into a
server error. Handler calls made before the exception are kept, because they
have already happened. They are exactly the calls of the changes ahead of the
first wrongly shaped entry or change, in entry-major order.

## Model

| member | source | states |
|---|---|---|
| JsonValues.Lookup | main.py:106-109 | a dict decoded from an object holds a value under a key exactly when some member has that key |
| JsonValues.LookupLastWins | main.py:106-109 | the value found is the one of the last member with that key; no later member repeats the key |
| JsonValues.Get | main.py:51-58 | `.get` raises AttributeError exactly on a non-dict; a missing key yields the default; a present key yields the dict's value for it |
| JsonValues.Iterate | main.py:52-56 | `for` raises TypeError exactly on null, booleans and numbers; a list yields its items; the loop body runs at least once exactly when the value is truthy; strings and dicts yield strings only |
| JsonValues.DistinctKeys | main.py:52-56 | iterating a dict visits each of its keys exactly once, and nothing else |
| Handshake.Verify | main.py:31-33 | status 200 exactly when mode is `subscribe` and the token equals the configured one; then the text is the challenge, or empty when it is absent; otherwise 403 with `Verification failed` |
| Handshake.ChallengeDoesNotAuthorize | main.py:31-33 | the challenge never changes the decision, and a request without the configured token is always refused |
| Handshake.VerifyQueryAsDeclared | main.py:21-33 | as declared, the endpoint accepts exactly when the query has `hub_mode=subscribe` and `hub_verify_token` equal to the secret, and refuses any query without `hub_mode` |
| Handshake.PlatformHandshakeRefusedAsDeclared | main.py:21-33 | the platform's own handshake, which sends `hub.mode`, is refused by the endpoint as declared even with the right token |
| Handshake.VerifyQuery | main.py:27-33 | with the platform's parameter names, the endpoint accepts exactly when `hub.mode` is `subscribe` and `hub.verify_token` is the secret, and echoes `hub.challenge` |
| Handshake.PlatformHandshakeAccepted | main.py:27-33 | the platform's handshake succeeds exactly when it carries the configured token, and then answers with its challenge |
| Envelope.ChangeStep | main.py:56-70 | one change raises exactly when it is not a dict, or is a live-video change whose value is not a dict; otherwise it calls the handler exactly when it is a live-video change with a truthy id, passing the entry's page id and the value's id and status |
| Envelope.EntryStep | main.py:52-56 | one entry raises exactly when it is not a dict or its changes cannot be iterated; otherwise it yields its page id and its changes |
| Envelope.WalkChanges | main.py:56-70 | the inner loop raises exactly when some remaining change is wrongly shaped, and every call it makes carries the entry's page id |
| Envelope.WalkEntries | main.py:51-70 | the outer loop raises exactly when some remaining entry is wrongly shaped |
| Envelope.Receive | main.py:43-76 | the reply is an error exactly on a wrongly shaped body; a dict whose `object` is not `page` (or is absent) gets `ignored` with no calls; a successful reply is 200, and its body is `ok` exactly for a page notification; a body that is not a dict raises AttributeError |
| Envelope.WalkChangesPicks | main.py:56-70 | over well-shaped changes, the inner loop makes exactly the calls its changes ask for, in change order |
| Envelope.WalkEntriesPicks | main.py:51-70 | over well-shaped entries, the outer loop makes exactly the calls the changes ask for, entry by entry |
| Envelope.WalkChangesUntilRaise | main.py:56-70 | on any changes, the inner loop makes exactly the calls of the changes ahead of the first wrongly shaped one, in change order, and raises AttributeError exactly when there is such a change |
| Envelope.WalkEntriesUntilRaise | main.py:51-70 | on any entries, the outer loop makes exactly the calls of all changes ahead of the first wrongly shaped entry or change, entry by entry: an entry that cannot be read adds none, and a readable entry adds those of its changes ahead of its first wrongly shaped change |
| Envelope.ReceiveUntilRaise | main.py:43-76 | on any body, whatever the reply, the calls made are those of a page notification's changes ahead of its first wrongly shaped entry or change, in entry-major order; any other body makes none |
| Envelope.ReceivePicks | main.py:47-76 | a well-shaped page notification is acknowledged `ok` after exactly the calls its changes ask for |
| Envelope.ReceiveSelects | main.py:51-76 | on a well-shaped page notification, the n-th call comes from a selected change at a position (entry, change), with that entry's page id and that change's video id and status; positions strictly increase in entry-major order; every selected change is called |
| Envelope.AbsentKeysDefault | main.py:51-64 | a missing `entry` or `changes` means no iterations; a missing `value` means nothing is selected; a missing page id or status is passed on as null |
| Forwarder.PayloadRoundTrip | main.py:112-120 | the posted object has all seven payload keys, each once, and reads back as the same payload |
| Forwarder.BuildPayload | main.py:100-120 | page id, video id and status are copied verbatim; after a failed lookup all four enrichment fields are null; an enrichment field the lookup did not return is null |
| Forwarder.EnrichmentFromLookup | main.py:106-109 | an enrichment field the lookup did return is the value of the last member the lookup returned with that field's key, the one the decoded dict keeps |
| Forwarder.HandleEvent | main.py:79-130 | no request without a token; otherwise first the GET to the Graph API base for the event's video with the fixed fields and the token, then a POST to the forwarding URL for this event and its lookup outcome exactly when that URL is configured |
| Forwarder.ForwardBodyReadsBack | main.py:112-125 | the POST sends the payload built for its event: read back it gives the event's page id, video id and status and the looked-up enrichment |
| Forwarder.LookupUrl | main.py:91 | the GET for a string video id goes to the Graph API base, a slash, and the id |
| Forwarder.FailedLookupReadsAsEmpty | main.py:96-102 | a failed lookup issues the same requests, posting the same body, as a lookup that returned an empty object |
| Forwarder.DeliveryUnobservable | main.py:123-130 | the forward's success or failure changes nothing the handler does |
| Relay.HandlePost | main.py:43-130 | without a token a POST issues no request; a non-page dict is acknowledged `ignored` with no request; a non-dict body raises AttributeError with no request; a successful reply is 200 |
| Relay.HandleAllWithoutToken | main.py:86-88 | without a token no handler call issues a request |
| Relay.HandleAllAppend | main.py:52-70 | the requests of consecutive runs of handler calls are the concatenation of each run's requests |
| Relay.HandleAllLookupOnly | main.py:86-130 | with a token and no forwarding URL, the n-th request is the GET for the n-th call's video, and nothing else is sent |
| Relay.HandleAllLookupAndForward | main.py:86-130 | with a token and a forwarding URL, requests 2n and 2n + 1 are the n-th call's GET and the POST built from its own lookup outcome |
| Relay.HandleAllIgnoresDeliveries | main.py:123-130 | forward outcomes change none of the requests |
| Relay.ReplyIgnoresNetwork | main.py:43-76 | the reply depends on the body alone, not on the configuration or on anything the network returned |
| Relay.NoLiveVideoNoRequests | main.py:56-76 | a well-shaped page notification without a selected change is acknowledged `ok` and issues no request |
| Relay.RequestsPerDispatch | main.py:69-130 | with a token, a notification issues, per dispatched event and in dispatch order, the GET for its video, followed by its POST exactly when a forwarding URL is configured |
| Relay.SampleReceived | main.py:43-76 | the sample page notification (page `P1`, video `V1`, status `LIVE`) is acknowledged `ok` after exactly one handler call with those three values |
| Relay.SampleNotificationRelayed | main.py:43-130 | with a token and a forwarding URL, the sample notification issues one GET for `V1` and then one POST for the `P1`/`V1`/`LIVE` event |

## Left out

- Web framework plumbing is not modelled: routing, async handlers, the `/`
  liveness endpoint, and the conversion of an exception into a 500 response.
  A raised exception is returned as `Err` instead of a reply.
- `request.json()` body parsing is not modelled. The model starts from the
  decoded value, and its numbers are exact reals. Python's JSON decoder accepts
  `NaN` and `Infinity`, which have no counterpart here.
- JsonValues.Truthy: a number is falsy exactly when it is zero as an exact
  real. Python decodes a number with a fraction or an exponent to a 64-bit
  float, which rounds, and underflows to `0.0` for magnitudes below about
  `2.5e-324`. So a video id such as `1e-400` is falsy in Python, and main.py:69
  skips that change, while the model calls the handler for it. Integers decode
  exactly in Python, so integer ids agree.
- Forwarder.BuildPayload: numbers copied into the payload keep their exact
  value. Python would forward the rounded 64-bit float of a decoded fraction
  or exponent.
- `print` logging is left out. It is not observable behaviour of the relay.
  This includes the unused read of `value.get("event")`, which cannot raise
  once `value.get("id")` has succeeded.
- Reading the environment (main.py:8-10) is left out. The three settings are
  the fields of `Settings.Config`. The default verify token
  `your-verify-token` is kept as `Settings.DefaultVerifyToken`, for reference
  only.
- Network calls, timeouts and `raise_for_status` are left out; they are
  foreign calls. The lookup outcome is either the returned JSON object's
  members or a failure, and an HTTP error status counts as a failure. The
  forward outcome is a parameter that nothing depends on.
- A lookup that succeeds with a JSON body that is not an object, such as a
  list, is left out. The source would raise at main.py:106, outside its
  `try`. A successful lookup is assumed to return an object.
- Forwarder.LookupUrl: the GET records the raw video id. Its URL text is only
  stated for string ids. For a truthy non-string id the source would format
  the id with Python's `str()`, which is not modelled.
- Percent-encoding of the query string and the JSON serialisation of the
  payload on the wire are not modelled. The POST body is the JSON object
  `Request.Body()`.

## Findings

| source | as written | input that shows it | evidently intended | confidence | as-written member | corrected member |
|---|---|---|---|---|---|---|
| main.py:22-26 | the handler's arguments are named `hub_mode`, `hub_verify_token` and `hub_challenge`, and the web framework binds a query argument to the parameter of the same name | the platform's handshake `?hub.mode=subscribe&hub.verify_token=<secret>&hub.challenge=123` leaves all three arguments unset, so the answer is 403 `Verification failed` even with the right secret | the arguments bound to `hub.mode`, `hub.verify_token` and `hub.challenge`, so the platform's handshake with the right secret answers 200 with its challenge | medium, not executed | Handshake.PlatformHandshakeRefusedAsDeclared | Handshake.PlatformHandshakeAccepted |
