# rhasspy-nlu-hermes: a Dafny model of the Hermes NLU service core

This project models the core of `rhasspynlu_hermes`. That is the service that
exposes Rhasspy's intent recognition over the Hermes MQTT protocol. It has two parts.

- **Topic codec** of the provisional messages `NluTrain` and `NluTrainSuccess`
  (`messages.dfy`, module `Messages`). `topic(siteId=...)` builds
  `hermes/nlu/<siteId>/train` or `hermes/nlu/<siteId>/trainSuccess`, with
  `"default"` as the fallback. `is_topic` and `get_siteId` are written out as an
  explicit check of the anchored pattern `^hermes/nlu/([^/]+)<suffix>$`: the
  prefix, one non-empty segment without `/`, then the suffix.
- **`NluHermesMqtt`** (`nlu_hermes.dfy`, module `NluHermes`, with messages and the
  fan-out of one query in `nlu_events.dfy`, module `NluEvents`). It is a class
  with one mutable field, the held intent graph.
  - `HandleQuery` turns the recognition engine's candidate list into a fixed,
    ordered event sequence:
    - a parsed event, then an intent event routed by intent name;
    - or exactly one not-recognised event;
    - or exactly one error event.
  - `HandleTrain` swaps in a newly loaded graph and yields exactly one outcome.
  - `OnMessage` dispatches on the kind of the inbound message.

The handler's collaborators are not algorithms here. These are the recognition
engine, the graph loader, number expansion and the file-existence check. A
`World` value supplies their answers, and `Err` stands for a raised exception.
A handler's async generator is modelled as the sequence of events it yields
(`Stream`: it either yields its events or raises before yielding any).
`tokens.dfy` (module `Tokens`) models Python's `str.split()` and
`" ".join(...)`, which the handler uses around number expansion and for the raw
tokens.

The model follows the code in these details, where one might expect otherwise:
- The not-recognised event carries the query's *current* input. After number
  expansion that is the expanded text, not the text as it arrived
  (`rhasspynlu_hermes/__init__.py:95`, `:170`).
- Python's `$` also matches just before one final newline. So `is_topic`
  accepts `hermes/nlu/<site>/train` followed by a single `"\n"`, and
  `get_siteId` returns `<site>` for it (`Messages.TrainTopicShape`).
- With no usable graph, a query is answered with a not-recognised event, not an
  error (`rhasspynlu_hermes/__init__.py:111-113`).
- An empty graph counts as "no graph". A networkx graph is falsy when it has no
  nodes, so `Graph` carries its node count.

## Model

| member | source | states |
|---|---|---|
| `Messages.MatchSegment` | rhasspynlu_hermes/messages.py:24-26 | a match yields a non-empty `/`-free segment, and the topic is prefix + segment + suffix, possibly followed by one newline |
| `Messages.MatchTopic` | rhasspynlu_hermes/messages.py:13-33 | matching a built topic gives back the site id exactly when it is a non-empty `/`-free segment, for any suffix not ending in a newline |
| `Messages.MatchShape` | rhasspynlu_hermes/messages.py:13 | a topic matches iff it is prefix, one non-empty `/`-free segment, suffix, and at most a final newline (both directions) |
| `Messages.TrainTopic` | rhasspynlu_hermes/messages.py:19-21 | `topic(siteId=s)` is `hermes/nlu/` + `s` (or "default") + `/train`; matching it returns the site id exactly when the id is a non-empty `/`-free segment, and fails otherwise |
| `Messages.IsTrainTopic` | rhasspynlu_hermes/messages.py:23-26 | `is_topic`: the anchored train pattern matches; characterised by `Messages.TrainTopicShape` |
| `Messages.TrainSiteId` | rhasspynlu_hermes/messages.py:28-33 | `get_siteId` succeeds iff `is_topic` holds, otherwise fails with "Not a train topic"; the result is a segment that rebuilds the topic |
| `Messages.TrainRoundTrip` | rhasspynlu_hermes/messages.py:13-33 | `is_topic(topic(siteId=s))` iff `s` is non-empty and has no `/`; then `get_siteId` returns `s`, otherwise it fails |
| `Messages.TrainDefaultSite` | rhasspynlu_hermes/messages.py:19-21 | without a site id the topic is `hermes/nlu/default/train`, and it decodes to "default" |
| `Messages.TrainTopicShape` | rhasspynlu_hermes/messages.py:13 | train `is_topic` iff prefix `hermes/nlu/`, one non-empty `/`-free segment, `/train`, at most a final newline |
| `Messages.TrainSuccessTopic` | rhasspynlu_hermes/messages.py:46-48 | `topic(siteId=s)` is `hermes/nlu/` + `s` (or "default") + `/trainSuccess`; matching it returns the site id exactly when the id is a segment, and fails otherwise |
| `Messages.IsTrainSuccessTopic` | rhasspynlu_hermes/messages.py:50-53 | `is_topic`: the anchored trainSuccess pattern matches; characterised by `Messages.TrainSuccessTopicShape` |
| `Messages.TrainSuccessSiteId` | rhasspynlu_hermes/messages.py:55-60 | `get_siteId` succeeds iff `is_topic` holds, otherwise fails with "Not a trainSuccess topic"; the result rebuilds the topic |
| `Messages.TrainSuccessRoundTrip` | rhasspynlu_hermes/messages.py:40-60 | same construct/parse round trip with suffix `/trainSuccess` |
| `Messages.TrainSuccessDefaultSite` | rhasspynlu_hermes/messages.py:46-48 | without a site id the topic is `hermes/nlu/default/trainSuccess`, and it decodes to "default" |
| `Messages.TrainSuccessTopicShape` | rhasspynlu_hermes/messages.py:40 | trainSuccess `is_topic` iff prefix, one segment, `/trainSuccess`, at most a final newline |
| `Messages.TopicsDisjoint` | rhasspynlu_hermes/messages.py:13-53 | no topic is both a train topic and a trainSuccess topic |
| `Tokens.Split` | rhasspynlu_hermes/__init__.py:162 | every token `str.split()` yields is non-empty and free of whitespace |
| `Tokens.SplitJoin` | rhasspynlu_hermes/__init__.py:91-95 | joining whitespace-free words with spaces and splitting again gives the same words |
| `Tokens.SplitIdempotent` | rhasspynlu_hermes/__init__.py:92-95 | splitting, re-joining and splitting again gives the tokens of the first split |
| `NluEvents.NluQuery.constructor` | rhasspynlu_hermes/__init__.py:87-97 | a query whose `input` the handler overwrites in place (line 95); its id, allow-list, site id, session id and wake-word id are only read |
| `NluEvents.AcceptsIntent` | rhasspynlu_hermes/__init__.py:81-85 | the inner `intent_filter`: a missing or empty allow-list accepts every name, otherwise membership |
| `NluEvents.IntentFilterOf` | rhasspynlu_hermes/__init__.py:104-108 | the filter closure passed to the engine as `intent_filter` |
| `NluEvents.IntentFilterAccepts` | rhasspynlu_hermes/__init__.py:81-85 | with no or an empty `intentFilter` every name is accepted; otherwise a name is accepted iff it is listed |
| `NluEvents.SlotsOf` | rhasspynlu_hermes/__init__.py:125-140 | one slot per entity, in order, each with entity = slotName = the entity name, confidence 1.0, value, raw value and all four offsets copied |
| `NluEvents.Respond` | rhasspynlu_hermes/__init__.py:115-174 | empty candidates give one not-recognised event with the current input; otherwise only the first candidate is used and yields the parsed/intent pair; a first candidate without an intent fails the assertion |
| `NluHermes.HeldGraph` | rhasspynlu_hermes/__init__.py:73-77 | the lazy load: a truthy held graph is kept; a different graph comes only from a successful load of an existing `graph_path`; `is_file` or the loader may raise, and only when no usable graph is held and a path is set |
| `NluHermes.WorkingInput` | rhasspynlu_hermes/__init__.py:89-95 | number expansion on whitespace tokens, re-joined with single spaces; untouched text when expansion is off; see `NluHermes.WorkingInputTokens` |
| `NluHermes.Candidates` | rhasspynlu_hermes/__init__.py:104-110 | the engine is called on the working text, the held graph, the query's intent filter, the word transform and the fuzzy flag |
| `NluHermes.QueryTry` | rhasspynlu_hermes/__init__.py:72-174 | the `try` body: an exception before line 87 leaves `original_input` unbound and the graph and input as they were; every later exception has `original_input` bound to the input as it arrived |
| `NluHermes.QueryStreamAsWritten` | rhasspynlu_hermes/__init__.py:175-181 | the `except` clause as written: with `original_input` unbound it raises out of the generator and yields nothing; see `NluHermes.LazyLoadFailureEscapes` |
| `NluHermes.QueryEvents` | rhasspynlu_hermes/__init__.py:175-181 | the corrected `except` clause: every exception becomes one error event with the input as it arrived as context; see `NluHermes.QueryFailure` |
| `NluHermes.QueryExactlyOnce` | rhasspynlu_hermes/__init__.py:72-181 | every query yields either the parsed event followed by the intent event, or exactly one not-recognised or error event, never a mix |
| `NluHermes.QueryRecognized` | rhasspynlu_hermes/__init__.py:115-166 | a matching first candidate yields the pair with shared intent, slots, ids and `recognition.text`, topic args `{"intentName": name}`, and raw tokens split from the input as it arrived |
| `NluHermes.QueryWithoutGraph` | rhasspynlu_hermes/__init__.py:111-113 | with no usable graph after the lazy load, the query yields one not-recognised event and its input is untouched |
| `NluHermes.QueryNoMatch` | rhasspynlu_hermes/__init__.py:167-174 | an empty candidate list yields one not-recognised event with the current (possibly number-expanded) input |
| `NluHermes.QueryErrorAddressing` | rhasspynlu_hermes/__init__.py:175-181 | every error event of a query carries the query's site id and session id, and the input as it arrived as context |
| `NluHermes.QueryFailure` | rhasspynlu_hermes/__init__.py:175-181 | whatever raises in the `try` body, the corrected handler yields exactly `[NluError(siteId, sessionId, str(e), input as it arrived)]` |
| `NluHermes.QueryIntentlessCandidate` | rhasspynlu_hermes/__init__.py:117-119 | a first candidate without an intent yields exactly one error event with the empty assertion message, and the working text is kept |
| `NluHermes.QueryGraph` | rhasspynlu_hermes/__init__.py:73-77 | a query replaces the held graph only by a successful lazy load, and never replaces a non-empty graph |
| `NluHermes.HeldGraphIgnoresFiles` | rhasspynlu_hermes/__init__.py:73-79 | while a non-empty graph is held, the graph file's existence and contents do not affect a query |
| `NluHermes.WorkingInputTokens` | rhasspynlu_hermes/__init__.py:87-97 | without number expansion the text is untouched; with it, the new text splits back into exactly the words the expansion returned |
| `NluHermes.LazyLoadFailureEscapes` | rhasspynlu_hermes/__init__.py:72-181 | as written, a failed lazy graph load yields nothing and raises out of the handler; the corrected handler yields one error event |
| `NluHermes.AsWrittenAgreesOtherwise` | rhasspynlu_hermes/__init__.py:175-181 | on every other run, the handler as written and the corrected handler yield the same events |
| `NluHermes.TrainResponse` | rhasspynlu_hermes/__init__.py:196-200 | exactly one event: success routed with `{"siteId": siteId}` iff the load succeeded, else an error with that site id, session id = context = the train id |
| `NluHermes.HasSiteId` | rhasspynlu_hermes/__init__.py:216 | Python truthiness of the `siteId` argument: present and non-empty |
| `NluHermes.NluHermesMqtt.constructor` | rhasspynlu_hermes/__init__.py:31-54 | the service starts with the given graph (possibly none) and settings |
| `NluHermes.NluHermesMqtt.HandleQuery` | rhasspynlu_hermes/__init__.py:61-181 | the corrected handler of "## Findings" (`original_input` bound before the `try`): the held graph and the query's input are those the `try` body leaves, and the events are `QueryEvents`; on a failed lazy load this yields one error event where the code as written raises |
| `NluHermes.NluHermesMqtt.HandleTrain` | rhasspynlu_hermes/__init__.py:185-200 | on a successful load the held graph becomes the new one; on failure it is unchanged; exactly one outcome event |
| `NluHermes.NluHermesMqtt.OnMessage` | rhasspynlu_hermes/__init__.py:204-220 | a query yields exactly the events of the corrected `handle_query` (see "## Findings"); a training request without a truthy site id raises "Missing siteId", otherwise yields exactly `handle_train`'s events; any other message yields nothing |

## Findings

| source | as written | input that shows it | evidently intended | confidence | as-written member | corrected member |
|---|---|---|---|---|---|---|
| rhasspynlu_hermes/__init__.py:73-87 | the `except` clause reports `context=original_input` (line 180), but that variable is bound only at line 87; an exception from the lazy graph load at lines 73-77 (`is_file` or the loader) reaches the clause with it unbound, and reading it raises `UnboundLocalError` out of the generator, so the query gets no response | no graph held, `graph_path` set, and either `is_file` raises on it (e.g. `PermissionError`) or it names an existing file on which `gzip_pickle_to_graph` raises | exactly one `NluError` addressed to the query, with the query's input as context | high (not executed) | `NluHermes.QueryStreamAsWritten` (shown by `NluHermes.LazyLoadFailureEscapes`) | `NluHermes.NluHermesMqtt.HandleQuery` (`NluHermes.QueryEvents`, proved by `NluHermes.QueryExactlyOnce` and `NluHermes.QueryErrorAddressing`) |

## Left out

- The `HermesClient` base class is not part of this model. It does subscription,
  site-id allow-list filtering, topic resolution at publish time, JSON
  serialisation and publishing. No behaviour of it is claimed.
- `rhasspynlu_hermes/__main__.py` (argument parsing, logging, MQTT connection,
  event loop, the `str.upper`/`str.lower` word transforms) is I/O and CLI plumbing.
- Some calls are foreign or do I/O: `rhasspynlu.recognize`,
  `rhasspynlu.replace_numbers`, `gzip_pickle_to_graph`, `open` and
  `Path.is_file`. They are fields of `World` that return a value or `Err`, not
  algorithms. The same path always loads the same way within one `World`.
- `input_text` and the `word_transform` call at lines 97-101 are left out. The
  value is computed but never used. That call could raise, but its outcome is
  already covered: a `World` whose `recognize` returns `Err` gives the same
  single error event, with the graph and the input in the same state.
- `asyncio` is not modelled. Each generator is the sequence it yields, and
  interleaving between concurrent handlers is not modelled.
- Exception texts are opaque strings (`str(e)`). A bare `assert` gives the empty
  message.
- `default_entities` is stored by the constructor but never read in this file.
  `siteIds` and `client` go to the base class. `loop` is event-loop plumbing.
- The assertion `recognition is not None` (line 118) is not modelled: candidates
  are always values. The assertion `recognition.intent is not None` (line 119)
  is modelled.
- Entity values and tokens are strings. The engine may give other JSON values
  for them.
- `topic(siteId=None)` or a non-string site id would be formatted by the f-string
  (`"None"`, ...). Only an absent keyword or a string site id is modelled.
- The non-topic fields `sentences` and `graph_dict` of the provisional messages
  are plain data with no behaviour. The service itself imports a different
  `NluTrain` (id and graph path), which is the `NluTrain` of `NluHermes`. The
  message's `id` field of `NluTrainSuccess` is named `trainId` here.
- Whitespace for `str.split()` is the set of characters Python's `str.isspace()`
  accepts. No other Unicode processing is modelled.
- Python `assert` statements are modelled as active (not run under `-O`).
