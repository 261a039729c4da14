/**
 * The Hermes NLU messages the handler reads and writes, the intent-name
 * filter, the slot list built from the engine's entities, and the mapping
 * from the engine's candidate list to the ordered events of one query
 * (the part of `NluHermesMqtt.handle_query` after recognition).
 */
module NluEvents {
  import opened Wrappers
  import opened Tokens

  // ------------------------------------------------------------ engine output

  /** An intent as the recognition engine reports it. */
  datatype RecognizedIntent = RecognizedIntent(name: string, confidence: real)

  /** A matched entity with its span in the working text and in the raw text. */
  datatype RecognizedEntity = RecognizedEntity(
    entity: string, value: string, rawValue: string,
    start: int, end: int, rawStart: int, rawEnd: int)

  /** One candidate recognition; `intent` may be missing. */
  datatype Recognition = Recognition(
    intent: Option<RecognizedIntent>, entities: seq<RecognizedEntity>,
    text: string, tokens: seq<string>)

  // --------------------------------------------------------- Hermes messages

  datatype Intent = Intent(intentName: string, confidenceScore: real)

  datatype SlotRange = SlotRange(start: int, end: int, rawStart: int, rawEnd: int)

  datatype Slot = Slot(
    entity: string, slotName: string, confidence: real,
    value: string, rawValue: string, range: SlotRange)

  /** The messages the handlers publish. */
  datatype Outgoing =
    | NluIntentParsed(input: string, id: Option<string>, siteId: string, sessionId: Option<string>,
                      intent: Intent, slots: seq<Slot>)
    | NluIntent(input: string, id: Option<string>, siteId: string, sessionId: Option<string>,
                intent: Intent, slots: seq<Slot>, asrTokens: seq<string>, rawAsrTokens: seq<string>,
                wakewordId: Option<string>)
    | NluIntentNotRecognized(input: string, id: Option<string>, siteId: string, sessionId: Option<string>)
    | NluError(siteId: string, sessionId: Option<string>, error: string, context: string)
    | NluTrainSuccess(trainId: string)  // the message's `id` field

  /**
   * One item a handler yields: a bare message (published with the default
   * topic arguments) or a message paired with extra topic arguments.
   */
  datatype Event = Bare(msg: Outgoing) | WithTopicArgs(msg: Outgoing, topicArgs: map<string, string>)

  /**
   * An inbound recognition request. The handler overwrites `input` with the
   * number-expanded text; every other field is only read.
   */
  class NluQuery {
    var input: string
    const id: Option<string>
    const intentFilter: Option<seq<string>>
    const siteId: string
    const sessionId: Option<string>
    const wakewordId: Option<string>

    constructor (input: string, id: Option<string>, intentFilter: Option<seq<string>>,
                 siteId: string, sessionId: Option<string>, wakewordId: Option<string>)
      ensures this.input == input && this.id == id && this.intentFilter == intentFilter
      ensures this.siteId == siteId && this.sessionId == sessionId && this.wakewordId == wakewordId
    {
      this.input := input;
      this.id := id;
      this.intentFilter := intentFilter;
      this.siteId := siteId;
      this.sessionId := sessionId;
      this.wakewordId := wakewordId;
    }
  }

  // ------------------------------------------------------------ intent filter

  /** The inner `intent_filter`: a missing or empty allow-list accepts every name. */
  function AcceptsIntent(intentFilter: Option<seq<string>>, intentName: string): bool {
    match intentFilter
    case None => true
    case Some(names) => if names == [] then true else intentName in names
  }

  /** The filter as the predicate handed to the recognition engine. */
  function IntentFilterOf(intentFilter: Option<seq<string>>): string -> bool {
    (intentName: string) => AcceptsIntent(intentFilter, intentName)
  }

  /** With no or an empty allow-list every name passes; otherwise exactly the listed ones do. */
  lemma IntentFilterAccepts(intentFilter: Option<seq<string>>, intentName: string)
    ensures (intentFilter.None? || intentFilter.value == []) ==> IntentFilterOf(intentFilter)(intentName)
    ensures intentFilter.Some? && intentFilter.value != [] ==>
              (IntentFilterOf(intentFilter)(intentName) <==> intentName in intentFilter.value)
  {
  }

  // ------------------------------------------------------------------- slots

  /** `slot` carries what the handler copies from `e`, with confidence 1.0. */
  predicate CopiesEntity(slot: Slot, e: RecognizedEntity) {
    && slot.entity == e.entity && slot.slotName == e.entity
    && slot.confidence == 1.0
    && slot.value == e.value && slot.rawValue == e.rawValue
    && slot.range == SlotRange(e.start, e.end, e.rawStart, e.rawEnd)
  }

  /** The slot list comprehension over `recognition.entities`. */
  function SlotsOf(entities: seq<RecognizedEntity>): (slots: seq<Slot>)
    ensures |slots| == |entities|
    ensures forall i :: 0 <= i < |entities| ==> CopiesEntity(slots[i], entities[i])
  {
    if entities == [] then []
    else
      var e := entities[0];
      [Slot(e.entity, e.entity, 1.0, e.value, e.rawValue, SlotRange(e.start, e.end, e.rawStart, e.rawEnd))]
        + SlotsOf(entities[1..])
  }

  // ------------------------------------------------------- query fan-out

  /** The error event of a query: addressed to the query's site and session. */
  function QueryError(q: NluQuery, error: string, context: string): Event {
    Bare(NluError(q.siteId, q.sessionId, error, context))
  }

  /** The single event of an unrecognised query, carrying the query's current input. */
  function NotRecognizedEvent(q: NluQuery, input: string): Event {
    Bare(NluIntentNotRecognized(input, q.id, q.siteId, q.sessionId))
  }

  /**
   * `events` is the recognised pair for candidate `rec`: first the parsed
   * event, then the intent event with the intent name as topic argument;
   * both carry the same intent, slots, ids and `rec.text`, and the raw
   * tokens are the whitespace split of the original input.
   */
  predicate IsRecognizedPair(q: NluQuery, originalInput: string, rec: Recognition, events: seq<Event>) {
    && rec.intent.Some?
    && var intent := Intent(rec.intent.value.name, rec.intent.value.confidence);
    && |events| == 2
    && events[0].Bare? && events[0].msg.NluIntentParsed?
    && events[1].WithTopicArgs? && events[1].msg.NluIntent?
    && events[1].topicArgs == map["intentName" := rec.intent.value.name]
    && var parsed, full := events[0].msg, events[1].msg;
    && parsed.input == full.input == rec.text
    && parsed.id == full.id == q.id
    && parsed.siteId == full.siteId == q.siteId
    && parsed.sessionId == full.sessionId == q.sessionId
    && parsed.intent == full.intent == intent
    && parsed.slots == full.slots
    && |full.slots| == |rec.entities|
    && (forall i :: 0 <= i < |rec.entities| ==> CopiesEntity(full.slots[i], rec.entities[i]))
    && full.asrTokens == rec.tokens
    && full.rawAsrTokens == Split(originalInput)
    && full.wakewordId == q.wakewordId
  }

  /**
   * The events for the candidate list `recognitions`: only the first
   * candidate is used. A first candidate without an intent fails the
   * handler's assertion, which raises with an empty message.
   */
  function Respond(q: NluQuery, input: string, originalInput: string, recognitions: seq<Recognition>)
    : (r: Result<seq<Event>>)
    ensures r.Err? <==> recognitions != [] && recognitions[0].intent.None?
    ensures r.Err? ==> r.error == ""
    ensures recognitions == [] ==> r == Ok([NotRecognizedEvent(q, input)])
    ensures recognitions != [] && r.Ok? ==> IsRecognizedPair(q, originalInput, recognitions[0], r.value)
  {
    if recognitions == [] then Ok([NotRecognizedEvent(q, input)])
    else
      var rec := recognitions[0];
      match rec.intent
      case None => Err("")
      case Some(ri) =>
        var intent := Intent(ri.name, ri.confidence);
        var slots := SlotsOf(rec.entities);
        Ok([Bare(NluIntentParsed(rec.text, q.id, q.siteId, q.sessionId, intent, slots)),
            WithTopicArgs(NluIntent(rec.text, q.id, q.siteId, q.sessionId, intent, slots,
                                    rec.tokens, Split(originalInput), q.wakewordId),
                          map["intentName" := ri.name])])
  }
}
