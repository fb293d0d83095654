/**
 * The event receiver: walks a notification body (entries, then their
 * changes) and picks out the live-video changes that name a video. Each pick
 * becomes one call of the per-event handler, modelled here as a `Dispatch`.
 */
module Envelope {
  import opened Wrappers
  import opened JsonValues
  import opened Selection

  /** The only object kind the receiver acts on. */
  const PageKind: Json := JStr("page")

  /** The only change field the receiver acts on. */
  const LiveVideosField: Json := JStr("live_videos")

  /** One call of the per-event handler with its page id, video id and status, as read from the body. */
  datatype Dispatch = Dispatch(pageId: Json, videoId: Json, status: Json)

  /** A JSON HTTP response. */
  datatype Reply = Reply(statusCode: int, body: Json)

  const IgnoredBody: Json := JObj([("status", JStr("ignored")), ("reason", JStr("not a page object"))])
  const OkBody: Json := JObj([("status", JStr("ok"))])

  /**
   * What the receiver does with one body: the handler calls it makes, in
   * order, and then either its reply or the exception that ended the walk
   * (handler calls made before the exception have already happened).
   */
  datatype Extraction = Extraction(dispatched: seq<Dispatch>, reply: Result<Reply, PyError>)

  /** The handler calls made by part of the walk, and the exception that stopped it, if any. */
  datatype Walk = Walk(dispatched: seq<Dispatch>, raised: Option<PyError>)

  // Reading a body, as the walk reads it when no exception interferes.

  /** `v.get(k, default)`, reading `default` where Python would raise. */
  function Field(v: Json, k: string, default: Json): Json {
    match Get(v, k, default)
    case Ok(x) => x
    case Err(_) => default
  }

  /** The elements `for` visits, none where Python would raise. */
  function Elements(v: Json): seq<Json> {
    match Iterate(v)
    case Ok(xs) => xs
    case Err(_) => []
  }

  function Kind(data: Json): Json { Field(data, "object", JNull) }
  function EntriesOf(data: Json): seq<Json> { Elements(Field(data, "entry", JArr([]))) }
  function PageIdOf(entry: Json): Json { Field(entry, "id", JNull) }
  function ChangesOf(entry: Json): seq<Json> { Elements(Field(entry, "changes", JArr([]))) }
  function ValueOf(change: Json): Json { Field(change, "value", JObj([])) }
  function VideoIdOf(change: Json): Json { Field(ValueOf(change), "id", JNull) }
  function StatusOf(change: Json): Json { Field(ValueOf(change), "status", JNull) }

  predicate IsLiveVideo(change: Json) { Field(change, "field", JNull) == LiveVideosField }

  /** A change the receiver hands to the per-event handler: a live-video change with a truthy video id. */
  predicate Selected(change: Json) { IsLiveVideo(change) && Truthy(VideoIdOf(change)) }

  // The shapes on which no exception is raised.

  /** A change is a dict, and a live-video change's value is a dict too. */
  predicate WellShapedChange(change: Json) {
    change.JObj? && (IsLiveVideo(change) ==> ValueOf(change).JObj?)
  }

  /** An entry whose page id and changes can be read: a dict whose changes can be iterated. */
  predicate EntryReadable(entry: Json) {
    entry.JObj? && Iterate(Field(entry, "changes", JArr([]))).Ok?
  }

  /** An entry is readable and its changes are all well shaped. */
  predicate WellShapedEntry(entry: Json) {
    && EntryReadable(entry)
    && var cs := ChangesOf(entry);
       forall k :: 0 <= k < |cs| ==> WellShapedChange(cs[k])
  }

  /** The body is a dict, and when it is a page notification its entries can be iterated and are all well shaped. */
  predicate WellShapedBody(data: Json) {
    && data.JObj?
    && (Kind(data) == PageKind ==>
          && Iterate(Field(data, "entry", JArr([]))).Ok?
          && var es := EntriesOf(data);
             forall k :: 0 <= k < |es| ==> WellShapedEntry(es[k]))
  }

  // The walk, step by step as the handler runs it.

  /** The inner loop body for one change: a handler call, no call, or an exception. */
  function ChangeStep(pageId: Json, change: Json): (r: Result<Option<Dispatch>, PyError>)
    ensures r.Err? <==> !WellShapedChange(change)
    ensures r.Err? ==> r.error == AttributeError
    ensures r.Ok? ==> (r.value.Some? <==> Selected(change))
    ensures r.Ok? && r.value.Some? ==> r.value.value == Dispatch(pageId, VideoIdOf(change), StatusOf(change))
  {
    match Get(change, "field", JNull)
    case Err(e) => Err(e)
    case Ok(field) =>
      match Get(change, "value", JObj([]))
      case Err(e) => Err(e)
      case Ok(value) =>
        if field != LiveVideosField then Ok(None)
        else
          // The handler also reads `value.get("event")`; it is never used and cannot raise here.
          match Get(value, "id", JNull)
          case Err(e) => Err(e)
          case Ok(videoId) =>
            match Get(value, "status", JNull)
            case Err(e) => Err(e)
            case Ok(status) => Ok(if Truthy(videoId) then Some(Dispatch(pageId, videoId, status)) else None)
  }

  /** The outer loop's reads for one entry: its page id and the changes to iterate, or an exception. */
  function EntryStep(entry: Json): (r: Result<(Json, seq<Json>), PyError>)
    ensures r.Err? <==> !EntryReadable(entry)
    ensures r.Ok? ==> r.value == (PageIdOf(entry), ChangesOf(entry))
  {
    match Get(entry, "id", JNull)
    case Err(e) => Err(e)
    case Ok(pageId) =>
      match Get(entry, "changes", JArr([]))
      case Err(e) => Err(e)
      case Ok(changes) =>
        match Iterate(changes)
        case Err(e) => Err(e)
        case Ok(cs) => Ok((pageId, cs))
  }

  /** The inner loop from change `j` on. */
  function WalkChanges(pageId: Json, changes: seq<Json>, j: nat): (w: Walk)
    requires j <= |changes|
    ensures w.raised.None? <==> forall k :: j <= k < |changes| ==> WellShapedChange(changes[k])
    ensures forall d :: d in w.dispatched ==> d.pageId == pageId
    decreases |changes| - j
  {
    if j == |changes| then Walk([], None)
    else
      match ChangeStep(pageId, changes[j])
      case Err(e) => Walk([], Some(e))
      case Ok(call) =>
        var rest := WalkChanges(pageId, changes, j + 1);
        Walk((if call.Some? then [call.value] else []) + rest.dispatched, rest.raised)
  }

  /** The outer loop from entry `i` on. */
  function WalkEntries(entries: seq<Json>, i: nat): (w: Walk)
    requires i <= |entries|
    ensures w.raised.None? <==> forall k :: i <= k < |entries| ==> WellShapedEntry(entries[k])
    decreases |entries| - i
  {
    if i == |entries| then Walk([], None)
    else
      match EntryStep(entries[i])
      case Err(e) => Walk([], Some(e))
      case Ok((pageId, changes)) =>
        var here := WalkChanges(pageId, changes, 0);
        if here.raised.Some? then here
        else
          var rest := WalkEntries(entries, i + 1);
          Walk(here.dispatched + rest.dispatched, rest.raised)
  }

  /**
   * The receiver on a decoded body: a body of another kind is acknowledged as
   * ignored; a page notification is walked and acknowledged as ok.
   */
  function Receive(data: Json): (x: Extraction)
    ensures x.reply.Err? <==> !WellShapedBody(data)
    ensures data.JObj? && Kind(data) != PageKind ==> x == Extraction([], Ok(Reply(200, IgnoredBody)))
    ensures x.reply.Ok? ==> x.reply.value.statusCode == 200
    ensures x.reply.Ok? ==> (x.reply.value.body == OkBody <==> Kind(data) == PageKind)
    ensures x.reply.Ok? && Kind(data) != PageKind ==> x.reply.value.body == IgnoredBody
    ensures !data.JObj? ==> x == Extraction([], Err(AttributeError))
  {
    match Get(data, "object", JNull)
    case Err(e) => Extraction([], Err(e))
    case Ok(kind) =>
      if kind != PageKind then Extraction([], Ok(Reply(200, IgnoredBody)))
      else
        match Get(data, "entry", JArr([]))
        case Err(e) => Extraction([], Err(e))
        case Ok(entry) =>
          match Iterate(entry)
          case Err(e) => Extraction([], Err(e))
          case Ok(entries) =>
            assert entries == EntriesOf(data);
            var w := WalkEntries(entries, 0);
            Extraction(w.dispatched, if w.raised.Some? then Err(w.raised.value) else Ok(Reply(200, OkBody)))
  }

  // The walk against a reference: the handler call each change asks for, and
  // the present ones kept in order.

  /** The handler call a change asks for, if any. */
  function Pick(pageId: Json, change: Json): Option<Dispatch> {
    if Selected(change) then Some(Dispatch(pageId, VideoIdOf(change), StatusOf(change))) else None
  }

  /** The calls each change of one entry asks for, change by change. */
  function Picks(pageId: Json, cs: seq<Json>): seq<Option<Dispatch>> {
    seq(|cs|, k requires 0 <= k < |cs| => Pick(pageId, cs[k]))
  }

  /** The calls each change of each entry asks for, entry by entry. */
  function PicksAll(es: seq<Json>): seq<seq<Option<Dispatch>>> {
    seq(|es|, i requires 0 <= i < |es| => Picks(PageIdOf(es[i]), ChangesOf(es[i])))
  }

  /** One turn of the inner loop over a well-shaped change. */
  lemma WalkChangesUnfold(pageId: Json, cs: seq<Json>, j: nat)
    requires j < |cs| && WellShapedChange(cs[j])
    ensures WalkChanges(pageId, cs, j).dispatched ==
              (if Selected(cs[j]) then [Dispatch(pageId, VideoIdOf(cs[j]), StatusOf(cs[j]))] else [])
              + WalkChanges(pageId, cs, j + 1).dispatched
  {
    var step := ChangeStep(pageId, cs[j]);
    assert step.Ok?;
  }

  /** One turn of the outer loop over a well-shaped entry. */
  lemma WalkEntriesUnfold(es: seq<Json>, i: nat)
    requires i < |es| && WellShapedEntry(es[i])
    ensures WalkEntries(es, i).dispatched ==
              WalkChanges(PageIdOf(es[i]), ChangesOf(es[i]), 0).dispatched + WalkEntries(es, i + 1).dispatched
  {
    var step := EntryStep(es[i]);
    assert step.Ok?;
    assert WalkChanges(PageIdOf(es[i]), ChangesOf(es[i]), 0).raised.None?;
  }

  /** Over well-shaped changes, the inner loop makes exactly the calls the changes ask for, in order. */
  lemma {:induction false} WalkChangesPicks(pageId: Json, cs: seq<Json>, j: nat)
    requires j <= |cs|
    requires forall k :: j <= k < |cs| ==> WellShapedChange(cs[k])
    ensures WalkChanges(pageId, cs, j).dispatched == Somes(Picks(pageId, cs)[j..])
    decreases |cs| - j
  {
    if j < |cs| {
      WalkChangesPicks(pageId, cs, j + 1);
      WalkChangesUnfold(pageId, cs, j);
      assert Picks(pageId, cs)[j..][1..] == Picks(pageId, cs)[j + 1..];
    }
  }

  /** Over well-shaped entries, the outer loop makes exactly the calls the changes ask for, entry by entry. */
  lemma {:induction false} WalkEntriesPicks(es: seq<Json>, i: nat)
    requires i <= |es|
    requires forall k :: i <= k < |es| ==> WellShapedEntry(es[k])
    ensures WalkEntries(es, i).dispatched == SomesAll(PicksAll(es)[i..])
    decreases |es| - i
  {
    if i < |es| {
      WalkEntriesPicks(es, i + 1);
      WalkEntriesUnfold(es, i);
      var cs := ChangesOf(es[i]);
      WalkChangesPicks(PageIdOf(es[i]), cs, 0);
      assert Picks(PageIdOf(es[i]), cs)[0..] == Picks(PageIdOf(es[i]), cs);
      assert PicksAll(es)[i..][1..] == PicksAll(es)[i + 1..];
    }
  }

  /** On a well-shaped page notification the receiver replies ok, having made exactly the calls the changes ask for. */
  lemma ReceivePicks(data: Json)
    requires WellShapedBody(data) && Kind(data) == PageKind
    ensures Receive(data) == Extraction(SomesAll(PicksAll(EntriesOf(data))), Ok(Reply(200, OkBody)))
  {
    var es := EntriesOf(data);
    WalkEntriesPicks(es, 0);
    assert PicksAll(es)[0..] == PicksAll(es);
  }

  // The walk on wrongly shaped input: the calls made before the exception.

  /** The first change at or after `j` that is wrongly shaped, or `|cs|` when there is none. */
  function FirstBadChange(cs: seq<Json>, j: nat): (m: nat)
    requires j <= |cs|
    ensures j <= m <= |cs|
    ensures forall k :: j <= k < m ==> WellShapedChange(cs[k])
    ensures m < |cs| ==> !WellShapedChange(cs[m])
    decreases |cs| - j
  {
    if j == |cs| || !WellShapedChange(cs[j]) then j else FirstBadChange(cs, j + 1)
  }

  /** The first entry at or after `i` that is wrongly shaped, or `|es|` when there is none. */
  function FirstBadEntry(es: seq<Json>, i: nat): (m: nat)
    requires i <= |es|
    ensures i <= m <= |es|
    ensures forall k :: i <= k < m ==> WellShapedEntry(es[k])
    ensures m < |es| ==> !WellShapedEntry(es[m])
    decreases |es| - i
  {
    if i == |es| || !WellShapedEntry(es[i]) then i else FirstBadEntry(es, i + 1)
  }

  /**
   * The calls a wrongly shaped entry asks for before it raises: none when it
   * cannot be read, otherwise those of its changes ahead of the first wrongly
   * shaped one.
   */
  function BadEntryCalls(entry: Json): seq<Dispatch> {
    if EntryReadable(entry) then
      var cs := ChangesOf(entry);
      Somes(Picks(PageIdOf(entry), cs)[..FirstBadChange(cs, 0)])
    else []
  }

  /**
   * The calls the outer loop from entry `i` asks for up to its first wrongly
   * shaped entry or change: all those of the well-shaped entries ahead of it,
   * entry by entry, then those of the wrongly shaped entry.
   */
  function CallsBeforeRaise(es: seq<Json>, i: nat): seq<Dispatch>
    requires i <= |es|
  {
    var m := FirstBadEntry(es, i);
    SomesAll(PicksAll(es)[i..m]) + (if m < |es| then BadEntryCalls(es[m]) else [])
  }

  /**
   * The inner loop makes exactly the calls of the changes ahead of the first
   * wrongly shaped one, in change order, and raises AttributeError exactly
   * when there is such a change.
   */
  lemma {:induction false} WalkChangesUntilRaise(pageId: Json, cs: seq<Json>, j: nat)
    requires j <= |cs|
    ensures WalkChanges(pageId, cs, j).dispatched == Somes(Picks(pageId, cs)[j..FirstBadChange(cs, j)])
    ensures WalkChanges(pageId, cs, j).raised == (if FirstBadChange(cs, j) < |cs| then Some(AttributeError) else None)
    decreases |cs| - j
  {
    if j < |cs| {
      if WellShapedChange(cs[j]) {
        WalkChangesUntilRaise(pageId, cs, j + 1);
        WalkChangesUnfold(pageId, cs, j);
        var m := FirstBadChange(cs, j);
        assert FirstBadChange(cs, j + 1) == m;
        SomesStep(Picks(pageId, cs), j, m,
                  if Selected(cs[j]) then [Dispatch(pageId, VideoIdOf(cs[j]), StatusOf(cs[j]))] else [],
                  WalkChanges(pageId, cs, j + 1).dispatched);
      } else {
        assert ChangeStep(pageId, cs[j]).Err?;
      }
    }
  }

  /**
   * The outer loop makes exactly the calls of all changes ahead of the first
   * wrongly shaped entry or change, in entry-major order.
   */
  lemma {:induction false} WalkEntriesUntilRaise(es: seq<Json>, i: nat)
    requires i <= |es|
    ensures WalkEntries(es, i).dispatched == CallsBeforeRaise(es, i)
    decreases |es| - i
  {
    if i < |es| {
      if WellShapedEntry(es[i]) {
        WalkEntriesUntilRaise(es, i + 1);
        WalkEntriesUntilRaiseNext(es, i);
      } else {
        WalkEntriesUntilRaiseHere(es, i);
      }
    }
  }

  /** Past a well-shaped entry, the outer loop's calls are that entry's calls followed by the rest. */
  lemma WalkEntriesUntilRaiseNext(es: seq<Json>, i: nat)
    requires i < |es| && WellShapedEntry(es[i])
    requires WalkEntries(es, i + 1).dispatched == CallsBeforeRaise(es, i + 1)
    ensures WalkEntries(es, i).dispatched == CallsBeforeRaise(es, i)
  {
    var cs := ChangesOf(es[i]);
    var m := FirstBadEntry(es, i);
    var tail := if m < |es| then BadEntryCalls(es[m]) else [];
    assert FirstBadEntry(es, i + 1) == m;
    WalkEntriesUnfold(es, i);
    WalkChangesPicks(PageIdOf(es[i]), cs, 0);
    assert Picks(PageIdOf(es[i]), cs)[0..] == PicksAll(es)[i];
    SomesAllStep(PicksAll(es), i, m, WalkChanges(PageIdOf(es[i]), cs, 0).dispatched,
                 WalkEntries(es, i + 1).dispatched, tail);
  }

  /** At a wrongly shaped entry, the outer loop makes exactly that entry's calls before it raises. */
  lemma WalkEntriesUntilRaiseHere(es: seq<Json>, i: nat)
    requires i < |es| && !WellShapedEntry(es[i])
    ensures WalkEntries(es, i).dispatched == CallsBeforeRaise(es, i)
  {
    if EntryReadable(es[i]) {
      WalkEntriesReadableBad(es, i);
    } else {
      WalkEntriesUnreadable(es, i);
    }
    assert FirstBadEntry(es, i) == i;
    assert PicksAll(es)[i..i] == [];
  }

  /** At an entry that cannot be read, the outer loop raises before any call. */
  lemma WalkEntriesUnreadable(es: seq<Json>, i: nat)
    requires i < |es| && !EntryReadable(es[i])
    ensures WalkEntries(es, i).dispatched == BadEntryCalls(es[i]) == []
  {
    assert EntryStep(es[i]).Err?;
  }

  /** At a readable entry with a wrongly shaped change, the outer loop makes that entry's calls up to the change. */
  lemma WalkEntriesReadableBad(es: seq<Json>, i: nat)
    requires i < |es| && EntryReadable(es[i]) && !WellShapedEntry(es[i])
    ensures WalkEntries(es, i).dispatched == BadEntryCalls(es[i])
  {
    var cs := ChangesOf(es[i]);
    var m := FirstBadChange(cs, 0);
    WalkChangesUntilRaise(PageIdOf(es[i]), cs, 0);
    assert EntryStep(es[i]) == Ok((PageIdOf(es[i]), cs));
    assert Picks(PageIdOf(es[i]), cs)[0..m] == Picks(PageIdOf(es[i]), cs)[..m];
  }

  /**
   * On any body, the receiver makes exactly the calls of all changes ahead of
   * the first wrongly shaped entry or change of a page notification, in
   * entry-major order, and none for any other body.
   */
  lemma ReceiveUntilRaise(data: Json)
    ensures data.JObj? && Kind(data) == PageKind ==> Receive(data).dispatched == CallsBeforeRaise(EntriesOf(data), 0)
    ensures !(data.JObj? && Kind(data) == PageKind) ==> Receive(data).dispatched == []
  {
    if data.JObj? && Kind(data) == PageKind {
      WalkEntriesUntilRaise(EntriesOf(data), 0);
    }
  }

  /**
   * On a well-shaped page notification the receiver replies ok and calls the
   * handler exactly once per selected change, in entry-major then change
   * order, with the entry's page id and the change's video id and status:
   * `pos[n]` is the (entry, change) position the n-th call comes from.
   */
  lemma ReceiveSelects(data: Json) returns (pos: seq<(nat, nat)>)
    requires WellShapedBody(data) && Kind(data) == PageKind
    ensures Receive(data).reply == Ok(Reply(200, OkBody))
    ensures |pos| == |Receive(data).dispatched|
    ensures forall n :: 0 <= n < |pos| ==>
              var (i, k) := pos[n];
              var es := EntriesOf(data);
              && i < |es| && k < |ChangesOf(es[i])|
              && Selected(ChangesOf(es[i])[k])
              && Receive(data).dispatched[n]
                 == Dispatch(PageIdOf(es[i]), VideoIdOf(ChangesOf(es[i])[k]), StatusOf(ChangesOf(es[i])[k]))
    ensures forall a, b :: 0 <= a < b < |pos| ==> Before(pos[a], pos[b])
    ensures forall i: nat, k: nat ::
              i < |EntriesOf(data)| && k < |ChangesOf(EntriesOf(data)[i])| && Selected(ChangesOf(EntriesOf(data)[i])[k])
              ==> (i, k) in pos
  {
    var es := EntriesOf(data);
    var oss := PicksAll(es);
    ReceivePicks(data);
    pos := PositionsAll(oss);
    PositionsAllPick(oss);
    PositionsAllIncreasing(oss);
    PositionsAllComplete(oss);
    forall i: nat, k: nat | i < |es| && k < |ChangesOf(es[i])| && Selected(ChangesOf(es[i])[k])
      ensures (i, k) in pos
    {
      assert oss[i][k] == Pick(PageIdOf(es[i]), ChangesOf(es[i])[k]);
      assert pos[RankAll(oss, i, k)] == (i, k);
    }
    forall n | 0 <= n < |pos|
      ensures var (i, k) := pos[n];
              && i < |es| && k < |ChangesOf(es[i])|
              && Selected(ChangesOf(es[i])[k])
              && Receive(data).dispatched[n]
                 == Dispatch(PageIdOf(es[i]), VideoIdOf(ChangesOf(es[i])[k]), StatusOf(ChangesOf(es[i])[k]))
    {
      var (i, k) := pos[n];
      assert oss[i][k] == Pick(PageIdOf(es[i]), ChangesOf(es[i])[k]);
    }
  }

  /**
   * Absent keys read as their defaults: no `entry` means no entries, no
   * `changes` means no changes, no `value` means an empty value (so nothing
   * is selected), and a missing page id or status is passed on as null.
   */
  lemma AbsentKeysDefault(data: Json, entry: Json, change: Json)
    ensures data.JObj? && Kind(data) == PageKind && !HasKey(data.members, "entry") ==>
              Receive(data) == Extraction([], Ok(Reply(200, OkBody)))
    ensures entry.JObj? && !HasKey(entry.members, "changes") ==> WellShapedEntry(entry) && ChangesOf(entry) == []
    ensures entry.JObj? && !HasKey(entry.members, "id") ==> PageIdOf(entry) == JNull
    ensures change.JObj? && !HasKey(change.members, "value") ==> WellShapedChange(change) && !Selected(change)
    ensures ValueOf(change).JObj? && !HasKey(ValueOf(change).members, "status") ==> StatusOf(change) == JNull
  {
  }
}
