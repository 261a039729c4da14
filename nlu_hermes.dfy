/**
 * `NluHermesMqtt`: the Hermes NLU service. It holds the current intent
 * graph, answers recognition queries with a fixed, ordered sequence of
 * events, swaps in a new graph on training, and dispatches inbound messages
 * by their kind.
 *
 * The recognition engine, the graph loader, number expansion and the file
 * system are not modelled as algorithms; a `World` value supplies their
 * results, with `Err` standing for a raised exception.
 */
module NluHermes {
  import opened Wrappers
  import opened Tokens
  import opened NluEvents

  /** An opaque loaded intent graph. A networkx graph is falsy when it has no nodes. */
  datatype Graph = Graph(handle: nat, nodeCount: nat)

  /** Python truthiness of `self.intent_graph`. */
  predicate Truthy(graph: Option<Graph>) {
    graph.Some? && graph.value.nodeCount > 0
  }

  /** What the outside world answers when the handler calls out. */
  datatype World = World(
    isFile: string -> Result<bool>,                    // Path.is_file(), which may raise
    loadGraph: string -> Result<Graph>,                // open + gzip_pickle_to_graph
    replaceNumbers: (seq<string>, Option<string>) -> Result<seq<string>>,
    recognize: (string, Graph, string -> bool, Option<string -> string>, bool) -> Result<seq<Recognition>>)

  /** The service's settings, fixed at construction. */
  datatype Config = Config(
    graphPath: Option<string>,
    wordTransform: Option<string -> string>,
    fuzzy: bool,
    replaceNumbers: bool,
    language: Option<string>)

  /** An inbound training request: its id and the path of the new graph. */
  datatype NluTrain = NluTrain(id: string, graphPath: string)

  /** The inbound messages `on_message` distinguishes. */
  datatype Inbound = Query(query: NluQuery) | Train(train: NluTrain) | Unexpected(kind: string)

  /**
   * What a handler's generator does: yield `events` and finish, or raise
   * `error` before yielding anything.
   */
  datatype Stream = Yielded(events: seq<Event>) | Raised(error: string)

  /**
   * The message Python gives when the `except` clause reads the still unbound
   * `original_input`. The wording depends on the Python version: this is the
   * text of 3.8 to 3.10; 3.11 and later say "cannot access local variable
   * 'original_input' where it is not associated with a value".
   */
  const UnboundOriginalInput: string := "local variable 'original_input' referenced before assignment"

  // ------------------------------------------------ handle_query, step by step

  /** The graph is loaded from `graph_path` when none (or an empty one) is held and the file exists. */
  predicate LazyLoadApplies(cfg: Config, graph: Option<Graph>, w: World) {
    !Truthy(graph) && cfg.graphPath.Some? && w.isFile(cfg.graphPath.value) == Ok(true)
  }

  /**
   * The graph held after the lazy-load step, or the exception raised by
   * `is_file` or by the loader. `is_file` is asked only when no usable graph
   * is held and a path is configured.
   */
  function HeldGraph(cfg: Config, graph: Option<Graph>, w: World): (r: Result<Option<Graph>>)
    ensures Truthy(graph) ==> r == Ok(graph)
    ensures r.Ok? && r.value != graph ==>
              && LazyLoadApplies(cfg, graph, w) && w.loadGraph(cfg.graphPath.value).Ok?
              && r.value == Some(w.loadGraph(cfg.graphPath.value).value)
    ensures r.Err? ==> !Truthy(graph) && cfg.graphPath.Some?
  {
    if !Truthy(graph) && cfg.graphPath.Some? then
      match w.isFile(cfg.graphPath.value)
      case Err(e) => Err(e)
      case Ok(false) => Ok(graph)
      case Ok(true) =>
        match w.loadGraph(cfg.graphPath.value)
        case Ok(g) => Ok(Some(g))
        case Err(e) => Err(e)
    else Ok(graph)
  }

  /** The query text after optional number expansion: split, expand, re-join with spaces. */
  function WorkingInput(cfg: Config, input: string, w: World): Result<string> {
    if cfg.replaceNumbers then
      match w.replaceNumbers(Split(input), cfg.language)
      case Ok(words) => Ok(Join(words))
      case Err(e) => Err(e)
    else Ok(input)
  }

  /** The engine's candidates for the working text on graph `g`, filtered by the query's allow-list. */
  function Candidates(cfg: Config, g: Graph, q: NluQuery, working: string, w: World): Result<seq<Recognition>> {
    w.recognize(working, g, IntentFilterOf(q.intentFilter), cfg.wordTransform, cfg.fuzzy)
  }

  /**
   * How the `try` body of `handle_query` ends: it completes with the graph
   * held, the query's input and the events yielded, or it throws, recording
   * whether `original_input` had been bound by then.
   */
  datatype TryOutcome =
    | Completed(graph: Option<Graph>, input: string, events: seq<Event>)
    | Threw(graph: Option<Graph>, input: string, error: string, originalInput: Option<string>)

  /** The `try` body of `handle_query`, started with `graph` held and the query text `input`. */
  function QueryTry(cfg: Config, graph: Option<Graph>, q: NluQuery, input: string, w: World): (t: TryOutcome)
    ensures t.Threw? ==> (t.originalInput.None? <==> HeldGraph(cfg, graph, w).Err?)
    ensures t.Threw? && t.originalInput.Some? ==> t.originalInput.value == input
    ensures t.Threw? && t.originalInput.None? ==> t.graph == graph && t.input == input
  {
    match HeldGraph(cfg, graph, w)
    case Err(e) => Threw(graph, input, e, None)
    case Ok(g) =>
      if !Truthy(g) then Completed(g, input, [NotRecognizedEvent(q, input)])
      else
        match WorkingInput(cfg, input, w)
        case Err(e) => Threw(g, input, e, Some(input))
        case Ok(working) =>
          match Candidates(cfg, g.value, q, working, w)
          case Err(e) => Threw(g, working, e, Some(input))
          case Ok(recognitions) =>
            match Respond(q, working, input, recognitions)
            case Ok(events) => Completed(g, working, events)
            case Err(e) => Threw(g, working, e, Some(input))
  }

  /**
   * The `except` clause as written: it reports `original_input` as context,
   * so when the lazy load threw before that variable was bound, reading it
   * raises out of the generator and nothing is yielded.
   */
  function QueryStreamAsWritten(q: NluQuery, t: TryOutcome): Stream {
    match t
    case Completed(_, _, events) => Yielded(events)
    case Threw(_, _, e, None) => Raised(UnboundOriginalInput)
    case Threw(_, _, e, Some(original)) => Yielded([QueryError(q, e, original)])
  }

  /**
   * The events of `handle_query` with the original input bound before the
   * `try`: every exception becomes one error event whose context is the
   * query text as it arrived.
   */
  function QueryEvents(q: NluQuery, t: TryOutcome, originalInput: string): seq<Event> {
    match t
    case Completed(_, _, events) => events
    case Threw(_, _, e, _) => [QueryError(q, e, originalInput)]
  }

  // ------------------------------------------------------ handle_query laws

  /** A query gets either the recognised pair or exactly one not-recognised or error event. */
  lemma {:induction false} QueryExactlyOnce(cfg: Config, graph: Option<Graph>, q: NluQuery, input: string, w: World)
    ensures var events := QueryEvents(q, QueryTry(cfg, graph, q, input, w), input);
      && (|events| == 1 || |events| == 2)
      && (|events| == 2 ==> events[0].msg.NluIntentParsed? && events[1].msg.NluIntent?)
      && (|events| == 1 ==> events[0].Bare? && (events[0].msg.NluIntentNotRecognized? || events[0].msg.NluError?))
  {
    match HeldGraph(cfg, graph, w)
    case Err(_) =>
    case Ok(g) =>
      if Truthy(g) {
        match WorkingInput(cfg, input, w)
        case Err(_) =>
        case Ok(working) =>
          match Candidates(cfg, g.value, q, working, w)
          case Err(_) =>
          case Ok(recognitions) =>
            var r := Respond(q, working, input, recognitions);
      }
  }

  /**
   * A matching first candidate yields the recognised pair, built from that
   * candidate alone, with raw tokens split from the input as it arrived.
   */
  lemma {:induction false} QueryRecognized(cfg: Config, graph: Option<Graph>, q: NluQuery, input: string, w: World,
                                           g: Graph, working: string, recognitions: seq<Recognition>)
    requires HeldGraph(cfg, graph, w) == Ok(Some(g)) && g.nodeCount > 0
    requires WorkingInput(cfg, input, w) == Ok(working)
    requires Candidates(cfg, g, q, working, w) == Ok(recognitions)
    requires recognitions != [] && recognitions[0].intent.Some?
    ensures QueryTry(cfg, graph, q, input, w).Completed?
    ensures IsRecognizedPair(q, input, recognitions[0], QueryEvents(q, QueryTry(cfg, graph, q, input, w), input))
  {
    var r := Respond(q, working, input, recognitions);
    assert r.Ok?;
  }

  /** With no usable graph after the lazy-load step, the query is not recognised and keeps its input. */
  lemma {:induction false} QueryWithoutGraph(cfg: Config, graph: Option<Graph>, q: NluQuery, input: string, w: World)
    requires HeldGraph(cfg, graph, w).Ok? && !Truthy(HeldGraph(cfg, graph, w).value)
    ensures var t := QueryTry(cfg, graph, q, input, w);
      t.input == input && QueryEvents(q, t, input) == [NotRecognizedEvent(q, input)]
  {
  }

  /**
   * An empty candidate list yields one not-recognised event carrying the
   * working text, which is the input as it arrived when numbers are not expanded.
   */
  lemma {:induction false} QueryNoMatch(cfg: Config, graph: Option<Graph>, q: NluQuery, input: string, w: World,
                                        g: Graph, working: string)
    requires HeldGraph(cfg, graph, w) == Ok(Some(g)) && g.nodeCount > 0
    requires WorkingInput(cfg, input, w) == Ok(working)
    requires Candidates(cfg, g, q, working, w) == Ok([])
    ensures var t := QueryTry(cfg, graph, q, input, w);
      t.input == working && QueryEvents(q, t, input) == [NotRecognizedEvent(q, working)]
    ensures !cfg.replaceNumbers ==> working == input
  {
  }

  /**
   * Every error event of a query is addressed to the query's site and
   * session and carries the input as it arrived as context.
   */
  lemma {:induction false} QueryErrorAddressing(cfg: Config, graph: Option<Graph>, q: NluQuery, input: string, w: World)
    ensures var events := QueryEvents(q, QueryTry(cfg, graph, q, input, w), input);
      forall i :: 0 <= i < |events| && events[i].msg.NluError? ==>
        events[i] == QueryError(q, events[i].msg.error, input)
  {
    QueryExactlyOnce(cfg, graph, q, input, w);
  }

  /**
   * Whatever raises inside the `try` body (`is_file`, the loader, number
   * expansion, the engine, or the assertion on the first candidate's intent),
   * the query yields exactly one error event carrying `str(e)`, addressed to
   * the query, with the input as it arrived as context; the graph and the
   * input stay as the `try` body left them.
   */
  lemma {:induction false} QueryFailure(cfg: Config, graph: Option<Graph>, q: NluQuery, input: string, w: World)
    requires QueryTry(cfg, graph, q, input, w).Threw?
    ensures var t := QueryTry(cfg, graph, q, input, w);
      QueryEvents(q, t, input) == [QueryError(q, t.error, input)]
  {
  }

  /**
   * A first candidate without an intent fails the handler's bare assertion:
   * one error event with the empty message, the working text kept.
   */
  lemma {:induction false} QueryIntentlessCandidate(cfg: Config, graph: Option<Graph>, q: NluQuery, input: string, w: World,
                                                    g: Graph, working: string, recognitions: seq<Recognition>)
    requires HeldGraph(cfg, graph, w) == Ok(Some(g)) && g.nodeCount > 0
    requires WorkingInput(cfg, input, w) == Ok(working)
    requires Candidates(cfg, g, q, working, w) == Ok(recognitions)
    requires recognitions != [] && recognitions[0].intent.None?
    ensures var t := QueryTry(cfg, graph, q, input, w);
      t.Threw? && t.graph == Some(g) && t.input == working
      && QueryEvents(q, t, input) == [QueryError(q, "", input)]
  {
  }

  /**
   * A query replaces the held graph only by a successful lazy load; in
   * particular a non-empty graph is never replaced by a query.
   */
  lemma {:induction false} QueryGraph(cfg: Config, graph: Option<Graph>, q: NluQuery, input: string, w: World)
    ensures QueryTry(cfg, graph, q, input, w).graph ==
      if LazyLoadApplies(cfg, graph, w) && w.loadGraph(cfg.graphPath.value).Ok?
      then Some(w.loadGraph(cfg.graphPath.value).value) else graph
    ensures QueryTry(cfg, graph, q, input, w).graph ==
      if HeldGraph(cfg, graph, w).Ok? then HeldGraph(cfg, graph, w).value else graph
    ensures Truthy(graph) ==> QueryTry(cfg, graph, q, input, w).graph == graph
  {
  }

  /** While a non-empty graph is held, the graph file plays no part in answering a query. */
  lemma {:induction false} HeldGraphIgnoresFiles(cfg: Config, graph: Option<Graph>, q: NluQuery, input: string, w: World,
                                                 isFile: string -> Result<bool>, loadGraph: string -> Result<Graph>)
    requires Truthy(graph)
    ensures QueryTry(cfg, graph, q, input, w) == QueryTry(cfg, graph, q, input, w.(isFile := isFile, loadGraph := loadGraph))
  {
  }

  /**
   * Number expansion works on whitespace tokens: without it the text is
   * untouched; with it, the new text splits back into exactly the words
   * the expansion returned.
   */
  lemma {:induction false} WorkingInputTokens(cfg: Config, input: string, w: World)
    ensures !cfg.replaceNumbers ==> WorkingInput(cfg, input, w) == Ok(input)
    ensures cfg.replaceNumbers && w.replaceNumbers(Split(input), cfg.language).Ok? ==>
      var words := w.replaceNumbers(Split(input), cfg.language).value;
      (forall i :: 0 <= i < |words| ==> IsWord(words[i])) ==>
        WorkingInput(cfg, input, w).Ok? && Split(WorkingInput(cfg, input, w).value) == words
  {
    if cfg.replaceNumbers && w.replaceNumbers(Split(input), cfg.language).Ok? {
      var words := w.replaceNumbers(Split(input), cfg.language).value;
      assert WorkingInput(cfg, input, w) == Ok(Join(words));
      if forall i :: 0 <= i < |words| ==> IsWord(words[i]) {
        SplitJoin(words);
      }
    }
  }

  /**
   * As written, a failed lazy graph load (`is_file` or the loader raising)
   * yields no event at all: the `except` clause raises instead. With the
   * original input bound first, the same run yields exactly one error event.
   */
  lemma {:induction false} LazyLoadFailureEscapes(cfg: Config, graph: Option<Graph>, q: NluQuery, input: string, w: World)
    requires HeldGraph(cfg, graph, w).Err?
    ensures QueryStreamAsWritten(q, QueryTry(cfg, graph, q, input, w)) == Raised(UnboundOriginalInput)
    ensures QueryEvents(q, QueryTry(cfg, graph, q, input, w), input)
            == [QueryError(q, HeldGraph(cfg, graph, w).error, input)]
    ensures LazyLoadApplies(cfg, graph, w) && w.loadGraph(cfg.graphPath.value).Err? ==>
              HeldGraph(cfg, graph, w).error == w.loadGraph(cfg.graphPath.value).error
  {
  }

  /** Every other run of `handle_query` yields the same events as written and corrected. */
  lemma {:induction false} AsWrittenAgreesOtherwise(cfg: Config, graph: Option<Graph>, q: NluQuery, input: string, w: World)
    requires HeldGraph(cfg, graph, w).Ok?
    ensures QueryStreamAsWritten(q, QueryTry(cfg, graph, q, input, w))
            == Yielded(QueryEvents(q, QueryTry(cfg, graph, q, input, w), input))
  {
    var t := QueryTry(cfg, graph, q, input, w);
    assert t.Threw? ==> t.originalInput == Some(input);
  }

  // ------------------------------------------------------------ handle_train

  /** The single outcome event of a training request received on site `siteId`. */
  function TrainResponse(train: NluTrain, siteId: string, loaded: Result<Graph>): (events: seq<Event>)
    ensures |events| == 1
    ensures loaded.Ok? <==> events[0].WithTopicArgs?
    ensures loaded.Ok? ==> events[0].msg == NluTrainSuccess(train.id) && events[0].topicArgs == map["siteId" := siteId]
    ensures loaded.Err? ==> events[0].msg.NluError? && events[0].msg.siteId == siteId
    ensures loaded.Err? ==> events[0].msg.sessionId == Some(train.id) && events[0].msg.context == train.id
    ensures loaded.Err? ==> events[0].msg.error == loaded.error
  {
    match loaded
    case Ok(_) => [WithTopicArgs(NluTrainSuccess(train.id), map["siteId" := siteId])]
    case Err(e) => [Bare(NluError(siteId, Some(train.id), e, train.id))]
  }

  /** Python truthiness of the `siteId` argument of `on_message`. */
  predicate HasSiteId(siteId: Option<string>) {
    siteId.Some? && siteId.value != ""
  }

  // ---------------------------------------------------------------- service

  class NluHermesMqtt {
    /** The graph queries are answered from; `None` until one is loaded. */
    var intentGraph: Option<Graph>
    const config: Config

    constructor (intentGraph: Option<Graph>, config: Config)
      ensures this.intentGraph == intentGraph && this.config == config
    {
      this.intentGraph := intentGraph;
      this.config := config;
    }

    /**
     * `handle_query`, with `original_input` bound before the `try`.
     * The held graph and the query's input change as the `try` body says;
     * the events are those of `QueryEvents`.
     */
    method HandleQuery(query: NluQuery, w: World) returns (events: seq<Event>)
      modifies this`intentGraph, query`input
      ensures var t := QueryTry(config, old(intentGraph), query, old(query.input), w);
        && intentGraph == t.graph
        && query.input == t.input
        && events == QueryEvents(query, t, old(query.input))
    {
      var originalInput := query.input;
      if !Truthy(intentGraph) && config.graphPath.Some? {
        var isFile := w.isFile(config.graphPath.value);
        if isFile.Err? {
          events := [QueryError(query, isFile.error, originalInput)];
          return;
        }
        if isFile.value {
          var loaded := w.loadGraph(config.graphPath.value);
          if loaded.Err? {
            events := [QueryError(query, loaded.error, originalInput)];
            return;
          }
          intentGraph := Some(loaded.value);
        }
      }

      var recognitions: seq<Recognition> := [];
      if Truthy(intentGraph) {
        if config.replaceNumbers {
          var words := w.replaceNumbers(Split(query.input), config.language);
          if words.Err? {
            events := [QueryError(query, words.error, originalInput)];
            return;
          }
          query.input := Join(words.value);
        }
        var found := w.recognize(query.input, intentGraph.value, IntentFilterOf(query.intentFilter),
                                 config.wordTransform, config.fuzzy);
        if found.Err? {
          events := [QueryError(query, found.error, originalInput)];
          return;
        }
        recognitions := found.value;
      }

      var response := Respond(query, query.input, originalInput, recognitions);
      if response.Err? {
        events := [QueryError(query, response.error, originalInput)];
      } else {
        events := response.value;
      }
    }

    /**
     * `handle_train`: on a successful load the held graph becomes the new
     * one and a success event is routed to `siteId`; on failure the held
     * graph is untouched and one error event is yielded.
     */
    method HandleTrain(train: NluTrain, siteId: string, w: World) returns (events: seq<Event>)
      modifies this`intentGraph
      ensures var loaded := w.loadGraph(train.graphPath);
        && events == TrainResponse(train, siteId, loaded)
        && intentGraph == if loaded.Ok? then Some(loaded.value) else old(intentGraph)
    {
      var loaded := w.loadGraph(train.graphPath);
      if loaded.Ok? {
        intentGraph := Some(loaded.value);
      }
      events := TrainResponse(train, siteId, loaded);
    }

    /**
     * `on_message`: a query yields exactly `handle_query`'s events; a
     * training request needs a non-empty site id and yields exactly
     * `handle_train`'s events; any other message yields nothing.
     */
    method OnMessage(message: Inbound, siteId: Option<string>, w: World) returns (r: Stream)
      modifies this`intentGraph, (if message.Query? then {message.query} else {})`input
      ensures message.Query? ==>
        var t := QueryTry(config, old(intentGraph), message.query, old(message.query.input), w);
        && r == Yielded(QueryEvents(message.query, t, old(message.query.input)))
        && intentGraph == t.graph && message.query.input == t.input
      ensures message.Train? && !HasSiteId(siteId) ==>
        r == Raised("Missing siteId") && intentGraph == old(intentGraph)
      ensures message.Train? && HasSiteId(siteId) ==>
        var loaded := w.loadGraph(message.train.graphPath);
        && r == Yielded(TrainResponse(message.train, siteId.value, loaded))
        && intentGraph == if loaded.Ok? then Some(loaded.value) else old(intentGraph)
      ensures message.Unexpected? ==> r == Yielded([]) && intentGraph == old(intentGraph)
    {
      match message
      case Query(query) =>
        var events := HandleQuery(query, w);
        r := Yielded(events);
      case Train(train) =>
        if !HasSiteId(siteId) {
          r := Raised("Missing siteId");
        } else {
          var events := HandleTrain(train, siteId.value, w);
          r := Yielded(events);
        }
      case Unexpected(_) =>
        r := Yielded([]);
    }
  }
}
