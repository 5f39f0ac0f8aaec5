/** The Flask backend: the readiness flags set by the background
    initialisation, and the decisions of the `/status`, `/query` and
    `/process_pdfs` routes. Routing, JSON and threads are not modelled; a
    reply is its status code and the fields of its JSON body. */
module App {
  import opened Common
  import RagEngine

  /** The JSON bodies the routes return. */
  datatype Body =
    | StatusBody(status: string)
    | StatusErrorBody(status: string, message: string)
    | ErrorBody(error: string)
    | AnswerBody(response: RagEngine.Response, sources: seq<string>)
    | MessageBody(message: string)

  /** A reply: HTTP status code and body (`jsonify(...)` alone means 200). */
  datatype Reply = Reply(code: nat, body: Body)

  const InitializingMessage := "System is still initializing. Please try again in a moment."
  const NoQueryMessage := "No query provided"
  const QueryFailedMessage := "An error occurred while processing your query"
  const NoDirectoryMessage := "No directory provided"

  /** Python truthiness of an optional string: present and non-empty. */
  predicate Truthy(s: Option<string>)
  {
    s.Some? && s.value != ""
  }

  /** The reply of `/status` for the given flags. */
  function StatusReply(complete: bool, error: Option<string>): (r: Reply)
    ensures r.code == 202 <==> !complete
    ensures r.code == 500 <==> complete && Truthy(error)
    ensures r.code == 200 <==> complete && !Truthy(error)
    ensures r.code == 202 ==> r.body == StatusBody("initializing")
    ensures r.code == 500 ==> r.body == StatusErrorBody("error", error.value)
    ensures r.code == 200 ==> r.body == StatusBody("ready")
  {
    if !complete then Reply(202, StatusBody("initializing"))
    else if Truthy(error) then Reply(500, StatusErrorBody("error", error.value))
    else Reply(200, StatusBody("ready"))
  }

  /** The guards of `/query`, in their order: the first that fails gives the
      reply; `None` means all pass and the engine is called. */
  function QueryPrecheck(complete: bool, error: Option<string>, query: Option<string>): (r: Option<Reply>)
    ensures !complete ==> r == Some(Reply(503, ErrorBody(InitializingMessage)))
    ensures complete && Truthy(error) ==>
              r == Some(Reply(500, ErrorBody("System initialization failed: " + error.value)))
    ensures complete && !Truthy(error) && !Truthy(query) ==> r == Some(Reply(400, ErrorBody(NoQueryMessage)))
    ensures r == None <==> complete && !Truthy(error) && Truthy(query)
  {
    if !complete then Some(Reply(503, ErrorBody(InitializingMessage)))
    else if Truthy(error) then Some(Reply(500, ErrorBody("System initialization failed: " + error.value)))
    else if !Truthy(query) then Some(Reply(400, ErrorBody(NoQueryMessage)))
    else None
  }

  /** An earlier guard hides the later ones: whatever the error and the query,
      a system still initialising answers 503, and a failed one 500. */
  lemma EarlierGuardShadowsLater(error: Option<string>, q1: Option<string>, q2: Option<string>)
    ensures QueryPrecheck(false, error, q1) == QueryPrecheck(false, None, q2)
    ensures Truthy(error) ==> QueryPrecheck(true, error, q1) == QueryPrecheck(true, error, q2)
  {
  }

  /** An engine whose index is missing from the account never becomes ready:
      the ValueError's message is non-empty, so once initialisation has ended
      `/status` answers 500 with that message. */
  lemma MissingIndexReportsError(indexName: string, namespace: string, modelName: string, names: seq<string>)
    requires indexName !in names
    ensures var construct := RagEngine.NewEngine(indexName, namespace, modelName, Ok(names));
            && construct.Err?
            && StatusReply(true, Some(construct.error))
               == Reply(500, StatusErrorBody("error", RagEngine.IndexNotFoundMessage(indexName)))
  {
  }

  /** What `/process_pdfs` answers, and the directory of the ingestion job it
      starts, if any. */
  datatype Accepted = Accepted(reply: Reply, job: Option<string>)

  /** `/process_pdfs`: `isDirectory` is `os.path.isdir`, `startFailure` the
      exception raised while importing the ingestion code or starting its
      thread. The flags of the engine are not consulted. */
  function ProcessPdfs(directory: Option<string>, isDirectory: string -> bool,
                       startFailure: Option<string>): (r: Accepted)
    ensures !Truthy(directory) ==> r == Accepted(Reply(400, ErrorBody(NoDirectoryMessage)), None)
    ensures Truthy(directory) && !isDirectory(directory.value) ==>
              r == Accepted(Reply(400, ErrorBody("Directory '" + directory.value + "' does not exist")), None)
    ensures r.reply.code == 400 <==> !Truthy(directory) || !isDirectory(directory.value)
    ensures r.job.Some? <==> r.reply.code == 202
    ensures r.job.Some? ==>
              r.job == directory
              && r.reply.body == MessageBody("Processing PDFs from '" + directory.value + "' has started")
    ensures r.reply.code == 500 <==> Truthy(directory) && isDirectory(directory.value) && startFailure.Some?
    ensures r.reply.code == 500 ==>
              r == Accepted(Reply(500, ErrorBody("Error starting PDF processing: " + startFailure.value)), None)
    ensures Truthy(directory) && isDirectory(directory.value) && startFailure.None? ==>
              r == Accepted(Reply(202, MessageBody("Processing PDFs from '" + directory.value + "' has started")),
                            directory)
  {
    if !Truthy(directory) then Accepted(Reply(400, ErrorBody(NoDirectoryMessage)), None)
    else if !isDirectory(directory.value) then
      Accepted(Reply(400, ErrorBody("Directory '" + directory.value + "' does not exist")), None)
    else match startFailure
      case Some(e) => Accepted(Reply(500, ErrorBody("Error starting PDF processing: " + e)), None)
      case None => Accepted(Reply(202, MessageBody("Processing PDFs from '" + directory.value + "' has started")), Some(directory.value))
  }

  /** The module globals `rag_engine`, `initialization_complete` and
      `initialization_error`, and the routes that read them. */
  class Server {
    var ragEngine: Option<RagEngine.Engine>
    var initializationComplete: bool
    var initializationError: Option<string>

    /** Before initialisation ends nothing is set; afterwards the engine or
        the error (or both, after a later success) is. */
    ghost predicate Valid()
      reads this
    {
      && (!initializationComplete ==> ragEngine == None && initializationError == None)
      && (initializationComplete ==> ragEngine.Some? || initializationError.Some?)
    }

    /** The state at import time. */
    constructor ()
      ensures Valid()
      ensures ragEngine == None && !initializationComplete && initializationError == None
      ensures Status() == Reply(202, StatusBody("initializing"))
    {
      ragEngine := None;
      initializationComplete := false;
      initializationError := None;
    }

    /** `initialize_engine()`, given the outcome of `MedicalRAGEngine()`:
        `construct` stands for `RagEngine.NewEngine(...)` applied to the
        configured names and to the listing of the account's indexes, with
        `Err(str(e))` when anything in the constructor raises. It always ends
        complete; only a success sets the engine and only a failure sets the
        error. */
    method InitializeEngine(construct: Result<RagEngine.Engine>)
      requires Valid()
      modifies this
      ensures Valid()
      ensures initializationComplete
      ensures construct.Ok? ==>
                ragEngine == Some(construct.value) && initializationError == old(initializationError)
      ensures construct.Err? ==>
                initializationError == Some(construct.error) && ragEngine == old(ragEngine)
      ensures construct.Err? ==> (Status().code == 500 <==> construct.error != "")
      ensures construct.Ok? && !old(Truthy(initializationError)) ==> Status() == Reply(200, StatusBody("ready"))
    {
      match construct
      case Ok(engine) =>
        ragEngine := Some(engine);
        initializationComplete := true;
      case Err(message) =>
        initializationError := Some(message);
        initializationComplete := true;
    }

    /** `/status`: initialising until the background initialisation ends,
        then an error carrying its message, or ready. */
    function Status(): (r: Reply)
      reads this
      ensures r.code == 202 <==> !initializationComplete
      ensures r.code == 500 <==> initializationComplete && Truthy(initializationError)
      ensures r.code == 200 <==> initializationComplete && !Truthy(initializationError)
      ensures r.code == 202 ==> r.body == StatusBody("initializing")
      ensures r.code == 500 ==> r.body == StatusErrorBody("error", initializationError.value)
      ensures r.code == 200 ==> r.body == StatusBody("ready")
      ensures Valid() && r.code == 200 ==> ragEngine.Some? || initializationError == Some("")
    {
      StatusReply(initializationComplete, initializationError)
    }

    /** `/query`, given the request's "query" field (`None` when it is absent
        or null). After the guards, the engine's answer is returned with 200;
        if there is no engine to call, the AttributeError is caught and the
        generic 500 is returned, without the exception's text. */
    method HandleQuery(query: Option<string>, svc: RagEngine.Services) returns (reply: Reply)
      ensures QueryPrecheck(initializationComplete, initializationError, query).Some? ==>
                reply == QueryPrecheck(initializationComplete, initializationError, query).value
      ensures QueryPrecheck(initializationComplete, initializationError, query).None? && ragEngine.None? ==>
                reply == Reply(500, ErrorBody(QueryFailedMessage))
      ensures QueryPrecheck(initializationComplete, initializationError, query).None? && ragEngine.Some? ==>
                var outcome := RagEngine.QueryOutcome(ragEngine.value, query.value, svc);
                && reply.code == 200 && reply.body.AnswerBody?
                && (outcome == RagEngine.Failed ==>
                      reply.body == AnswerBody(RagEngine.Text(RagEngine.ErrorMessage), []))
                && (outcome == RagEngine.NoContext ==>
                      reply.body == AnswerBody(RagEngine.Text(RagEngine.NoInformationMessage), []))
                && (outcome.Answered? ==>
                      reply.body.response == outcome.response
                      && NoDuplicates(reply.body.sources) && Elements(reply.body.sources) == outcome.sources)
    {
      var guard := QueryPrecheck(initializationComplete, initializationError, query);
      if guard.Some? {
        return guard.value;
      }
      if ragEngine.None? {
        return Reply(500, ErrorBody(QueryFailedMessage));
      }
      var result := RagEngine.Query(ragEngine.value, query.value, svc);
      reply := Reply(200, AnswerBody(result.response, result.sources));
    }

    /** A ready status with no engine happens only when the initialisation
        failed with an empty message: `str(e) == ""` is falsy, so the system
        reports ready and every query then gets the generic 500. */
    lemma ReadyWithoutEngine()
      requires Valid()
      requires Status().code == 200 && ragEngine == None
      ensures initializationError == Some("")
    {
    }
  }
}
