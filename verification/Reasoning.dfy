/**
 Reasoning compatibility of the Responses stream: raw reasoning events are rewritten to summary
 events, and when an upstream sends both forms for one item only the form seen first is forwarded.
 */
module Reasoning {
  import opened Wrappers

  const MAX_REASONING_ITEMS: nat := 256

  datatype Source = NativeSummary | RawAsSummary

  datatype Kind =
    | SummaryPartAdded | SummaryPartDone | SummaryTextDelta | SummaryTextDone
    | ReasoningTextDelta | ReasoningTextDone
    | ContentPartAdded | ContentPartDone
    | OutputItemDone
    | ResponseCompleted
    | OtherKind(name: string)

  datatype Index = NoIndex | Number(n: nat) | NotNumber

  datatype SummaryPart = SummaryText(text: string) | OtherSummary(json: string)

  datatype ContentPart = ContentPart(kind: Option<string>, text: Option<string>)

  /** `summary` and `content` are `None` when they are missing or not arrays; `rest` is every other field. */
  datatype OutputItem = OutputItem(
    kind: Option<string>, id: Option<string>,
    summary: Option<seq<SummaryPart>>, content: Option<seq<ContentPart>>, rest: string)

  /** One JSON event: its type if it has one, the fields the normaliser reads or writes, and the rest. */
  datatype SseEvent = SseEvent(
    kind: Option<Kind>, itemId: Option<string>, partKind: Option<string>, contentIndex: Index, summaryIndex: Index,
    item: Option<OutputItem>, output: Option<seq<OutputItem>>, rest: string)

  datatype ReasoningError = StateLimit

  datatype Tracker = Tracker(sources: map<string, Source>, itemIdBytes: nat, maxItemIdBytes: nat)

  function NewTracker(maxItemIdBytes: nat): Tracker { Tracker(map[], 0, maxItemIdBytes) }

  predicate IsNative(e: SseEvent) {
    e.kind.Some? && e.kind.value in {SummaryPartAdded, SummaryPartDone, SummaryTextDelta, SummaryTextDone}
  }

  predicate IsRaw(e: SseEvent) {
    e.kind.Some? &&
    (e.kind.value in {ReasoningTextDelta, ReasoningTextDone}
     || (e.kind.value in {ContentPartAdded, ContentPartDone} && e.partKind == Some("reasoning_text")))
  }

  function SummaryKind(kind: Kind): Kind {
    match kind
    case ContentPartAdded => SummaryPartAdded
    case ContentPartDone => SummaryPartDone
    case ReasoningTextDelta => SummaryTextDelta
    case ReasoningTextDone => SummaryTextDone
    case other => other
  }

  function NormalizeRaw(e: SseEvent): SseEvent
    requires IsRaw(e)
  {
    e.(kind := Some(SummaryKind(e.kind.value)),
       summaryIndex := Number(if e.contentIndex.Number? then e.contentIndex.n else 0),
       contentIndex := NoIndex,
       partKind := if e.partKind == Some("reasoning_text") then Some("summary_text") else e.partKind)
  }

  /** The summary the raw reasoning parts of an item amount to. */
  function SummaryOf(content: seq<ContentPart>): seq<SummaryPart> {
    if content == [] then []
    else (if content[0].kind == Some("reasoning_text") && content[0].text.Some?
          then [SummaryText(content[0].text.value)] else [])
         + SummaryOf(content[1..])
  }

  function NormalizeItem(item: OutputItem): OutputItem {
    if item.kind != Some("reasoning") || item.summary.GetOr([]) != [] || SummaryOf(item.content.GetOr([])) == []
    then item
    else item.(summary := Some(SummaryOf(item.content.GetOr([]))), content := Some([]))
  }

  function NormalizeItems(items: seq<OutputItem>): seq<OutputItem> {
    if items == [] then [] else [NormalizeItem(items[0])] + NormalizeItems(items[1..])
  }

  /** The source already recorded for an item, or `None` after recording this one. */
  function RecordSource(t: Tracker, itemId: string, source: Source): Result<(Tracker, Option<Source>), ReasoningError> {
    if itemId in t.sources then Ok((t, Some(t.sources[itemId])))
    else if |t.sources| >= MAX_REASONING_ITEMS || t.itemIdBytes + |itemId| > t.maxItemIdBytes then Err(StateLimit)
    else Ok((t.(sources := t.sources[itemId := source], itemIdBytes := t.itemIdBytes + |itemId|), None))
  }

  function SaturatingSub(a: nat, b: nat): nat { if a >= b then a - b else 0 }

  function RemoveSource(t: Tracker, itemId: string): Tracker {
    if itemId !in t.sources then t
    else t.(sources := t.sources - {itemId}, itemIdBytes := SaturatingSub(t.itemIdBytes, |itemId|))
  }

  type Normalized = Result<(Tracker, Option<SseEvent>), ReasoningError>

  function Track(t: Tracker, e: SseEvent, source: Source, forwarded: SseEvent): Normalized {
    if e.itemId.None? then Ok((t, Some(forwarded))) else
    match RecordSource(t, e.itemId.value, source)
    case Err(x) => Err(x)
    case Ok(r) => Ok((r.0, if r.1.GetOr(source) == source then Some(forwarded) else None))
  }

  /** One event: what is forwarded, if anything. */
  function Normalize(t: Tracker, e: SseEvent): Normalized {
    if e.kind.None? then Ok((t, None))
    else if IsNative(e) then Track(t, e, NativeSummary, e)
    else if IsRaw(e) then Track(t, e, RawAsSummary, NormalizeRaw(e))
    else if e.kind.value.OutputItemDone? then
      if e.item.None? then Ok((t, Some(e)))
      else Ok((if e.item.value.id.Some? then RemoveSource(t, e.item.value.id.value) else t,
               Some(e.(item := Some(NormalizeItem(e.item.value))))))
    else if e.kind.value.ResponseCompleted? && e.output.Some? then
      Ok((t, Some(e.(output := Some(NormalizeItems(e.output.value))))))
    else Ok((t, Some(e)))
  }

  function NormalizeAll(t: Tracker, events: seq<SseEvent>): Result<(Tracker, seq<SseEvent>), ReasoningError>
    decreases |events|
  {
    if events == [] then Ok((t, [])) else
    match Normalize(t, events[0])
    case Err(x) => Err(x)
    case Ok(head) =>
      match NormalizeAll(head.0, events[1..])
      case Err(x) => Err(x)
      case Ok(tail) => Ok((tail.0, (if head.1.Some? then [head.1.value] else []) + tail.1))
  }

  // Idempotence.

  lemma NormalizeItemTwice(item: OutputItem)
    ensures NormalizeItem(NormalizeItem(item)) == NormalizeItem(item)
    ensures NormalizeItem(item).id == item.id
  {
  }

  lemma {:induction false} NormalizeItemsTwice(items: seq<OutputItem>)
    ensures NormalizeItems(NormalizeItems(items)) == NormalizeItems(items)
  {
    if items != [] {
      NormalizeItemTwice(items[0]);
      NormalizeItemsTwice(items[1..]);
      assert NormalizeItems(items)[1..] == NormalizeItems(items[1..]);
    }
  }

  /** A tracker and its twin on the normalised stream: the same items, all from native events. */
  ghost predicate Twins(t: Tracker, twin: Tracker) {
    && twin.sources.Keys == t.sources.Keys
    && twin.itemIdBytes == t.itemIdBytes && twin.maxItemIdBytes == t.maxItemIdBytes
    && forall id :: id in twin.sources ==> twin.sources[id] == NativeSummary
  }

  lemma TwinTrack(t: Tracker, twin: Tracker, e: SseEvent, source: Source, forwarded: SseEvent)
    requires Twins(t, twin) && Track(t, e, source, forwarded).Ok? && forwarded.itemId == e.itemId
    ensures var r := Track(t, e, source, forwarded).value;
            if r.1.None? then Twins(r.0, twin)
            else r.1 == Some(forwarded)
                 && Track(twin, forwarded, NativeSummary, forwarded).Ok?
                 && Track(twin, forwarded, NativeSummary, forwarded).value.1 == Some(forwarded)
                 && Twins(r.0, Track(twin, forwarded, NativeSummary, forwarded).value.0)
  {
    assert |twin.sources.Keys| == |twin.sources| && |t.sources.Keys| == |t.sources|;
  }

  /** What was forwarded is forwarded again unchanged, and cannot hit a limit the first pass did not. */
  lemma TwinStep(t: Tracker, twin: Tracker, e: SseEvent)
    requires Twins(t, twin) && Normalize(t, e).Ok?
    ensures var r := Normalize(t, e).value;
            if r.1.None? then Twins(r.0, twin)
            else Normalize(twin, r.1.value).Ok?
                 && Normalize(twin, r.1.value).value.1 == r.1
                 && Twins(r.0, Normalize(twin, r.1.value).value.0)
                 && !IsRaw(r.1.value)
  {
    if e.kind.None? {
    } else if IsNative(e) {
      TwinTrack(t, twin, e, NativeSummary, e);
    } else if IsRaw(e) {
      TwinTrack(t, twin, e, RawAsSummary, NormalizeRaw(e));
    } else if e.kind.value.OutputItemDone? && e.item.Some? {
      NormalizeItemTwice(e.item.value);
    } else if e.kind.value.ResponseCompleted? && e.output.Some? {
      NormalizeItemsTwice(e.output.value);
    }
  }

  lemma {:induction false} TwinRun(t: Tracker, twin: Tracker, events: seq<SseEvent>)
    requires Twins(t, twin) && NormalizeAll(t, events).Ok?
    ensures var r := NormalizeAll(t, events).value;
            && NormalizeAll(twin, r.1).Ok? && NormalizeAll(twin, r.1).value.1 == r.1
            && Twins(r.0, NormalizeAll(twin, r.1).value.0)
            && forall e :: e in r.1 ==> !IsRaw(e)
    decreases |events|
  {
    if events != [] {
      TwinStep(t, twin, events[0]);
      var head := Normalize(t, events[0]).value;
      var next := if head.1.None? then twin else Normalize(twin, head.1.value).value.0;
      TwinRun(head.0, next, events[1..]);
      var out := NormalizeAll(t, events).value.1;
      if head.1.Some? {
        assert out[1..] == NormalizeAll(head.0, events[1..]).value.1;
      } else {
        assert out == NormalizeAll(head.0, events[1..]).value.1;
      }
    }
  }

  /**
   Main law: no raw reasoning event is ever forwarded, and a forwarded stream put through a fresh
   normaliser comes out unchanged, within the limits.
   */
  lemma NormalizationIsIdempotent(maxItemIdBytes: nat, events: seq<SseEvent>)
    requires NormalizeAll(NewTracker(maxItemIdBytes), events).Ok?
    ensures var forwarded := NormalizeAll(NewTracker(maxItemIdBytes), events).value.1;
            && (forall e :: e in forwarded ==> !SpeaksRaw(e))
            && NormalizeAll(NewTracker(maxItemIdBytes), forwarded).Ok?
            && NormalizeAll(NewTracker(maxItemIdBytes), forwarded).value.1 == forwarded
  {
    TwinRun(NewTracker(maxItemIdBytes), NewTracker(maxItemIdBytes), events);
  }

  // One source per item.

  /** A reasoning event of item `id`, in either form. */
  predicate Tracked(e: SseEvent, id: string) { (IsSummary(e) || SpeaksRaw(e)) && e.itemId == Some(id) }

  predicate IsSummary(e: SseEvent) {
    || e.kind == Some(SummaryPartAdded) || e.kind == Some(SummaryPartDone)
    || e.kind == Some(SummaryTextDelta) || e.kind == Some(SummaryTextDone)
  }

  predicate SpeaksRaw(e: SseEvent) {
    || e.kind == Some(ReasoningTextDelta) || e.kind == Some(ReasoningTextDone)
    || (e.partKind == Some("reasoning_text") && (e.kind == Some(ContentPartAdded) || e.kind == Some(ContentPartDone)))
  }

  function SourceOf(e: SseEvent): Source { if IsSummary(e) then NativeSummary else RawAsSummary }

  predicate Forwards(t: Tracker, e: SseEvent) { Normalize(t, e).Ok? && Normalize(t, e).value.1.Some? }

  predicate Finishes(e: SseEvent, id: string) {
    e.kind == Some(OutputItemDone) && e.item.Some? && e.item.value.id == Some(id)
  }

  /** A tracked event is forwarded exactly when the item's recorded source, if any, is its own. */
  lemma ForwardedIffOwnSource(t: Tracker, e: SseEvent, id: string)
    requires Tracked(e, id) && Normalize(t, e).Ok?
    ensures Forwards(t, e) <==> (id in t.sources ==> t.sources[id] == SourceOf(e))
    ensures var next := Normalize(t, e).value.0;
            id in next.sources && (Forwards(t, e) ==> next.sources[id] == SourceOf(e))
  {
  }

  lemma {:induction false} SourceIsKept(t: Tracker, events: seq<SseEvent>, id: string)
    requires id in t.sources && NormalizeAll(t, events).Ok? && forall e :: e in events ==> !Finishes(e, id)
    ensures var next := NormalizeAll(t, events).value.0; id in next.sources && next.sources[id] == t.sources[id]
    decreases |events|
  {
    if events != [] {
      assert !Finishes(events[0], id);
      SourceIsKept(Normalize(t, events[0]).value.0, events[1..], id);
    }
  }

  /**
   Main law: from a forwarded reasoning event of an item until the item is done, every other
   forwarded reasoning event of that item comes from the same source.
   */
  lemma SourcesNeverMix(t: Tracker, first: SseEvent, between: seq<SseEvent>, later: SseEvent, id: string)
    requires Tracked(first, id) && Tracked(later, id) && Forwards(t, first)
    requires forall e :: e in between ==> !Finishes(e, id)
    requires NormalizeAll(Normalize(t, first).value.0, between).Ok?
    requires Forwards(NormalizeAll(Normalize(t, first).value.0, between).value.0, later)
    ensures SourceOf(later) == SourceOf(first)
  {
    var begun := Normalize(t, first).value.0;
    ForwardedIffOwnSource(t, first, id);
    SourceIsKept(begun, between, id);
    ForwardedIffOwnSource(NormalizeAll(begun, between).value.0, later, id);
  }

  // What is forwarded.

  /** Exactly a new item over 256 items, or over the byte limit, is refused. */
  lemma RefusedIff(t: Tracker, e: SseEvent)
    ensures Normalize(t, e).Err? <==>
              && (IsSummary(e) || SpeaksRaw(e)) && e.itemId.Some? && e.itemId.value !in t.sources
              && (|t.sources| >= 256 || t.itemIdBytes + |e.itemId.value| > t.maxItemIdBytes)
  {
  }

  /**
   A native event is forwarded as it is. A raw one becomes the summary event of the same kind: part for part,
   delta for delta, done for done, at the summary index that was its content index; item and all else stay.
   */
  lemma ForwardedEvent(t: Tracker, e: SseEvent)
    requires Forwards(t, e) && (IsSummary(e) || SpeaksRaw(e))
    ensures var sent := Normalize(t, e).value.1.value;
            if IsSummary(e) then sent == e
            else
              && sent == e.(kind := sent.kind, partKind := sent.partKind, summaryIndex := sent.summaryIndex,
                            contentIndex := sent.contentIndex)
              && (sent.kind == Some(SummaryPartAdded) <==> e.kind == Some(ContentPartAdded))
              && (sent.kind == Some(SummaryPartDone) <==> e.kind == Some(ContentPartDone))
              && (sent.kind == Some(SummaryTextDelta) <==> e.kind == Some(ReasoningTextDelta))
              && (sent.kind == Some(SummaryTextDone) <==> e.kind == Some(ReasoningTextDone))
              && IsSummary(sent)
              && sent.contentIndex == NoIndex
              && sent.summaryIndex == (match e.contentIndex case Number(n) => Number(n) case _ => Number(0))
              && sent.partKind == (if e.partKind == Some("reasoning_text") then Some("summary_text") else e.partKind)
  {
  }

  /** Any other event is forwarded, and the two that carry items differ from what came in those items only. */
  lemma OtherEventsPass(t: Tracker, e: SseEvent)
    requires !IsSummary(e) && !SpeaksRaw(e)
    ensures Normalize(t, e).Ok?
    ensures var r := Normalize(t, e).value;
            && (r.1.None? <==> e.kind.None?)
            && (r.1.Some? ==>
                  && (e.kind != Some(OutputItemDone) && e.kind != Some(ResponseCompleted) ==> r.1.value == e)
                  && (e.kind == Some(OutputItemDone) ==> r.1.value == e.(item := r.1.value.item))
                  && (e.kind == Some(ResponseCompleted) ==> r.1.value == e.(output := r.1.value.output)))
            && r.0.maxItemIdBytes == t.maxItemIdBytes
            && (forall id :: id in r.0.sources <==> id in t.sources && !Finishes(e, id))
            && (forall id :: id in r.0.sources ==> r.0.sources[id] == t.sources[id])
  {
  }

  /** The items of those two: a reasoning item without a summary gets one from its raw text, other items none. */
  predicate Summarised(item: OutputItem, sent: OutputItem) {
    if item.kind == Some("reasoning") && item.summary in {None, Some([])} && sent != item
    then
      && item.content.Some? && sent.content == Some([])
      && sent == item.(summary := sent.summary, content := sent.content)
      && sent.summary == Some(SummaryOf(item.content.value)) && sent.summary != Some([])
    else sent == item && (item.kind == Some("reasoning") && item.summary in {None, Some([])} ==>
        item.content.None? || SummaryOf(item.content.value) == [])
  }

  lemma {:induction false} ItemsAreSummarised(items: seq<OutputItem>, k: nat)
    ensures |NormalizeItems(items)| == |items|
    ensures k < |items| ==> Summarised(items[k], NormalizeItems(items)[k])
  {
    if items != [] {
      ItemsAreSummarised(items[1..], if k == 0 then 0 else k - 1);
    }
  }

  lemma CarriedItemsAreSummarised(t: Tracker, e: SseEvent, k: nat)
    requires !IsSummary(e) && !SpeaksRaw(e) && e.kind.Some?
    ensures var sent := Normalize(t, e).value.1.value;
            && (e.kind == Some(OutputItemDone) && e.item.Some? ==>
                  sent.item.Some? && Summarised(e.item.value, sent.item.value))
            && (e.kind == Some(ResponseCompleted) && e.output.Some? ==>
                  sent.output.Some? && |sent.output.value| == |e.output.value|
                  && (k < |e.output.value| ==> Summarised(e.output.value[k], sent.output.value[k])))
  {
    if e.output.Some? {
      ItemsAreSummarised(e.output.value, k);
    }
    hide SummaryOf;
  }

  /** The summary is the texts of the raw reasoning parts that have one, in their order. */
  lemma {:induction false} SummaryIsInOrder(before: seq<ContentPart>, part: ContentPart, later: seq<ContentPart>)
    ensures SummaryOf(before + [part] + later) == SummaryOf(before) + SummaryOf([part]) + SummaryOf(later)
    ensures SummaryOf([part])
         == if part.kind == Some("reasoning_text") && part.text.Some? then [SummaryText(part.text.value)] else []
  {
    assert [part][1..] == [];
    if before == [] {
      assert [] + [part] + later == [part] + later && ([part] + later)[1..] == later;
    } else {
      var all := before + [part] + later;
      assert all[0] == before[0] && all[1..] == before[1..] + [part] + later;
      SummaryIsInOrder(before[1..], part, later);
    }
  }

  // The tracking budget.

  ghost function KeyBytes(ids: set<string>): nat
    decreases |ids|
  {
    if ids == {} then 0 else var id :| id in ids; |id| + KeyBytes(ids - {id})
  }

  lemma {:induction false} KeyBytesWithout(ids: set<string>, id: string)
    requires id in ids
    ensures KeyBytes(ids) == |id| + KeyBytes(ids - {id})
    decreases |ids|
  {
    var picked :| picked in ids && KeyBytes(ids) == |picked| + KeyBytes(ids - {picked});
    if picked != id {
      KeyBytesWithout(ids - {picked}, id);
      KeyBytesWithout(ids - {id}, picked);
      assert ids - {picked} - {id} == ids - {id} - {picked};
    }
  }

  /** The byte budget counts exactly the ids being tracked, and is respected. */
  ghost predicate Budgeted(t: Tracker) {
    t.itemIdBytes == KeyBytes(t.sources.Keys) <= t.maxItemIdBytes && |t.sources| <= MAX_REASONING_ITEMS
  }

  lemma RecordKeepsBudget(t: Tracker, id: string, source: Source)
    requires Budgeted(t) && RecordSource(t, id, source).Ok?
    ensures Budgeted(RecordSource(t, id, source).value.0)
  {
    var next := RecordSource(t, id, source).value.0;
    if id !in t.sources {
      KeyBytesWithout(next.sources.Keys, id);
      assert next.sources.Keys - {id} == t.sources.Keys;
    }
  }

  lemma RemoveKeepsBudget(t: Tracker, id: string)
    requires Budgeted(t)
    ensures Budgeted(RemoveSource(t, id))
    ensures id in t.sources ==> |id| <= t.itemIdBytes
  {
    if id in t.sources {
      KeyBytesWithout(t.sources.Keys, id);
      var next := t.sources - {id};
      assert next.Keys == t.sources.Keys - {id};
      assert |next.Keys| == |next| && |t.sources.Keys| == |t.sources|;
    }
  }

  /** No event, forwarded or dropped, breaks the budget; the subtraction on removal never saturates. */
  lemma NormalizeKeepsBudget(t: Tracker, e: SseEvent)
    requires Budgeted(t) && Normalize(t, e).Ok?
    ensures Budgeted(Normalize(t, e).value.0)
  {
    hide Budgeted, RecordSource, RemoveSource;
    if e.itemId.Some? && (IsNative(e) || IsRaw(e)) {
      RecordKeepsBudget(t, e.itemId.value, SourceOf(e));
    }
    if e.item.Some? && e.item.value.id.Some? {
      RemoveKeepsBudget(t, e.item.value.id.value);
    }
  }

  lemma {:induction false} RunKeepsBudget(t: Tracker, events: seq<SseEvent>)
    requires Budgeted(t) && NormalizeAll(t, events).Ok?
    ensures Budgeted(NormalizeAll(t, events).value.0)
    decreases |events|
  {
    if events != [] {
      NormalizeKeepsBudget(t, events[0]);
      RunKeepsBudget(Normalize(t, events[0]).value.0, events[1..]);
    }
  }

  // The normaliser as it runs.

  class ReasoningCompatibility {
    var sources: map<string, Source>
    var itemIdBytes: nat
    const maxItemIdBytes: nat

    function View(): Tracker
      reads this
    {
      Tracker(sources, itemIdBytes, maxItemIdBytes)
    }

    constructor (maxItemIdBytes: nat)
      ensures View() == NewTracker(maxItemIdBytes)
    {
      sources, itemIdBytes, this.maxItemIdBytes := map[], 0, maxItemIdBytes;
    }

    method Record(itemId: string, source: Source) returns (r: Result<Option<Source>, ReasoningError>)
      modifies this
      ensures match RecordSource(old(View()), itemId, source)
              case Err(e) => r == Err(e) && View() == old(View())
              case Ok(next) => r == Ok(next.1) && View() == next.0
    {
      if itemId in sources {
        return Ok(Some(sources[itemId]));
      }
      var nextItemIdBytes := itemIdBytes + |itemId|;
      if |sources| >= MAX_REASONING_ITEMS || nextItemIdBytes > maxItemIdBytes {
        return Err(StateLimit);
      }
      sources := sources[itemId := source];
      itemIdBytes := nextItemIdBytes;
      return Ok(None);
    }

    method Remove(itemId: string)
      modifies this
      ensures View() == RemoveSource(old(View()), itemId)
    {
      if itemId in sources {
        sources := sources - {itemId};
        itemIdBytes := SaturatingSub(itemIdBytes, |itemId|);
      }
    }

    method NormalizeEvent(e: SseEvent) returns (r: Result<Option<SseEvent>, ReasoningError>)
      modifies this
      ensures match Normalize(old(View()), e)
              case Err(x) => r == Err(x) && View() == old(View())
              case Ok(next) => r == Ok(next.1) && View() == next.0
    {
      if e.kind.None? {
        return Ok(None);
      }
      if IsNative(e) {
        if e.itemId.Some? {
          var recorded := Record(e.itemId.value, NativeSummary);
          if recorded.Err? {
            return Err(recorded.error);
          }
          if recorded.value == Some(RawAsSummary) {
            return Ok(None);
          }
        }
        return Ok(Some(e));
      }
      if IsRaw(e) {
        if e.itemId.Some? {
          var recorded := Record(e.itemId.value, RawAsSummary);
          if recorded.Err? {
            return Err(recorded.error);
          }
          if recorded.value == Some(NativeSummary) {
            return Ok(None);
          }
        }
        return Ok(Some(NormalizeRaw(e)));
      }
      var event := e;
      if e.kind.value.OutputItemDone? && e.item.Some? {
        event := e.(item := Some(NormalizeItem(e.item.value)));
        if e.item.value.id.Some? {
          Remove(e.item.value.id.value);
        }
      } else if e.kind.value.ResponseCompleted? && e.output.Some? {
        event := e.(output := Some(NormalizeItems(e.output.value)));
      }
      return Ok(Some(event));
    }
  }
}
