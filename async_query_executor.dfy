/**
 * The async-query service: create a query by dispatching it to the Spark engine and
 * recording its job metadata, fetch its results by polling the engine, and cancel it.
 * The metadata store is a map field; the dispatcher's answers are oracles passed per call;
 * every call into the dispatcher and the store is appended to a ghost history log so that the
 * order of effects, and their absence, can be stated.
 */
module AsyncQueryExecutor {
  import opened Wrappers

  /** `JobRunState.SUCCESS.toString()` and `JobRunState.FAILED.toString()`. */
  const JOB_RUN_SUCCESS: string := "SUCCESS"
  const JOB_RUN_FAILED: string := "FAILED"

  /** The keys of the engine's JSON answer. */
  const STATUS_FIELD: string := "status"
  const ERROR_FIELD: string := "error"

  /** The states the service itself writes; only CANCELLED is written by the code modelled here. */
  datatype QueryState = WAITING | RUNNING | SUCCESS | FAILED | CANCELLED | TIMEOUT | DROPPED

  /** A stored state: the dispatcher's reported status text, or one the service set. */
  datatype StoredState = Reported(status: string) | SetTo(state: QueryState)

  datatype LangType = SQL | PPL

  datatype JobType = INTERACTIVE | STREAMING | BATCH | REFRESH

  /** Opaque tokens passed through unchanged. */
  datatype AsyncQueryRequestContext = AsyncQueryRequestContext(id: nat)
  datatype SparkSubmitParameterModifier = SparkSubmitParameterModifier(id: nat)

  datatype CreateAsyncQueryRequest = CreateAsyncQueryRequest(
    query: string, datasource: string, lang: LangType, sessionId: Option<string>)

  datatype CreateAsyncQueryResponse = CreateAsyncQueryResponse(queryId: string, sessionId: Option<string>)

  datatype SparkExecutionEngineConfig = SparkExecutionEngineConfig(
    accountId: string, applicationId: string, executionRoleARN: string, clusterName: string,
    sparkSubmitParameterModifier: SparkSubmitParameterModifier)

  datatype DispatchQueryRequest = DispatchQueryRequest(
    accountId: string, applicationId: string, query: string, datasource: string, langType: LangType,
    executionRoleARN: string, clusterName: string,
    sparkSubmitParameterModifier: SparkSubmitParameterModifier, sessionId: Option<string>)

  datatype DispatchQueryResponse = DispatchQueryResponse(
    queryId: string, jobId: string, resultIndex: Option<string>, sessionId: Option<string>,
    datasourceName: string, jobType: JobType, indexName: Option<string>, status: string,
    error: Option<string>)

  datatype AsyncQueryJobMetadata = AsyncQueryJobMetadata(
    queryId: string, accountId: string, applicationId: string, jobId: string,
    resultIndex: Option<string>, sessionId: Option<string>, datasourceName: string, jobType: JobType,
    indexName: Option<string>, query: string, langType: LangType, state: StoredState,
    error: Option<string>)

  /** A decoded result row and a schema column. */
  datatype ExprValue = ExprValue(text: string)
  datatype Column = Column(name: string, typeName: string)

  /**
   * The engine's JSON answer to a poll: its status and error strings if present, and the
   * schema and rows the response handle decodes from it.
   */
  datatype PollResponse = PollResponse(
    status: Option<string>, error: Option<string>, schema: seq<Column>, rows: seq<ExprValue>)

  datatype AsyncQueryExecutionResponse = AsyncQueryExecutionResponse(
    status: string, schema: Option<seq<Column>>, results: Option<seq<ExprValue>>,
    error: Option<string>, sessionId: Option<string>)

  /** What the engine may report instead of an answer. */
  datatype EngineError = EngineError(message: string)

  datatype ServiceError =
    | AsyncQueryNotFound(message: string)
    | Engine(cause: EngineError)
    | JSONException(key: string)

  /** The calls the service makes on the dispatcher and the store, in order. */
  datatype Event =
    | Dispatched(request: DispatchQueryRequest)
    | Stored(metadata: AsyncQueryJobMetadata)
    | Polled(metadata: AsyncQueryJobMetadata)
    | CancelRequested(metadata: AsyncQueryJobMetadata)
    | StateUpdated(metadata: AsyncQueryJobMetadata, state: QueryState)

  function NotFoundMessage(queryId: string): string {
    "QueryId: " + queryId + " not found"
  }

  /** The dispatch request: engine settings from the config, the query itself from the caller. */
  function BuildDispatchRequest(config: SparkExecutionEngineConfig, request: CreateAsyncQueryRequest): (d: DispatchQueryRequest)
    ensures d.accountId == config.accountId && d.applicationId == config.applicationId
    ensures d.executionRoleARN == config.executionRoleARN && d.clusterName == config.clusterName
    ensures d.sparkSubmitParameterModifier == config.sparkSubmitParameterModifier
    ensures d.query == request.query && d.datasource == request.datasource
    ensures d.langType == request.lang && d.sessionId == request.sessionId
  {
    DispatchQueryRequest(
      config.accountId, config.applicationId, request.query, request.datasource, request.lang,
      config.executionRoleARN, config.clusterName, config.sparkSubmitParameterModifier, request.sessionId)
  }

  /** The stored record: job facts from the dispatch response, query and language from the caller, ids from the config. */
  function BuildJobMetadata(config: SparkExecutionEngineConfig, request: CreateAsyncQueryRequest,
                            response: DispatchQueryResponse): (m: AsyncQueryJobMetadata)
    ensures m.queryId == response.queryId && m.jobId == response.jobId
    ensures m.resultIndex == response.resultIndex && m.sessionId == response.sessionId
    ensures m.datasourceName == response.datasourceName && m.jobType == response.jobType
    ensures m.indexName == response.indexName
    ensures m.state == Reported(response.status) && m.error == response.error
    ensures m.query == request.query && m.langType == request.lang
    ensures m.accountId == config.accountId && m.applicationId == config.applicationId
  {
    AsyncQueryJobMetadata(
      response.queryId, config.accountId, config.applicationId, response.jobId, response.resultIndex,
      response.sessionId, response.datasourceName, response.jobType, response.indexName,
      request.query, request.lang, Reported(response.status), response.error)
  }

  /**
   * The response to a poll, with the defaults `"FAILED"` and `""` when the engine reports no
   * status or no error. This is the evidently intended reading of the source; see
   * `GetResultsAsWritten` for the code as written.
   */
  function TranslatePollResponse(poll: PollResponse, sessionId: Option<string>): (r: AsyncQueryExecutionResponse)
    ensures r.sessionId == sessionId
    ensures poll.status == Some(JOB_RUN_SUCCESS) ==>
              && r.status == JOB_RUN_SUCCESS && r.error == None
              && r.schema == Some(poll.schema) && r.results == Some(poll.rows)
    ensures poll.status != Some(JOB_RUN_SUCCESS) ==>
              && r.schema == None && r.results == None
              && r.status == (if poll.status.Some? then poll.status.value else JOB_RUN_FAILED)
              && r.error == Some(if poll.error.Some? then poll.error.value else "")
  {
    if poll.status == Some(JOB_RUN_SUCCESS) then
      AsyncQueryExecutionResponse(JOB_RUN_SUCCESS, Some(poll.schema), Some(poll.rows), None, sessionId)
    else
      AsyncQueryExecutionResponse(poll.status.GetOr(JOB_RUN_FAILED), None, None, Some(poll.error.GetOr("")), sessionId)
  }

  /** The SUCCESS test as written: `getString` throws when the answer has no status. */
  function IsSuccessAsWritten(poll: PollResponse): (r: Result<bool, ServiceError>)
    ensures poll.status.None? ==> r == Failure(JSONException(STATUS_FIELD))
    ensures poll.status.Some? ==> r == Success(poll.status.value == JOB_RUN_SUCCESS)
  {
    match poll.status
    case None => Failure(JSONException(STATUS_FIELD))
    case Some(s) => Success(s == JOB_RUN_SUCCESS)
  }

  /** The response as the code is written: the status test runs first, so a missing status throws. */
  function GetResultsAsWritten(poll: PollResponse, sessionId: Option<string>): (r: Result<AsyncQueryExecutionResponse, ServiceError>)
    ensures poll.status.None? ==> r == Failure(JSONException(STATUS_FIELD))
    ensures poll.status == Some(JOB_RUN_SUCCESS) ==>
              r == Success(AsyncQueryExecutionResponse(JOB_RUN_SUCCESS, Some(poll.schema), Some(poll.rows), None, sessionId))
    ensures poll.status.Some? && poll.status.value != JOB_RUN_SUCCESS ==>
              r == Success(AsyncQueryExecutionResponse(poll.status.value, None, None, Some(poll.error.GetOr("")), sessionId))
  {
    var isSuccess :- IsSuccessAsWritten(poll);
    if isSuccess then
      Success(AsyncQueryExecutionResponse(JOB_RUN_SUCCESS, Some(poll.schema), Some(poll.rows), None, sessionId))
    else
      Success(AsyncQueryExecutionResponse(poll.status.GetOr(JOB_RUN_FAILED), None, None, Some(poll.error.GetOr("")), sessionId))
  }

  /**
   * As written, the `"FAILED"` default is never produced: a response says FAILED only when
   * the engine said so, and an answer without a status throws instead.
   */
  lemma FailedDefaultUnreachableAsWritten(poll: PollResponse, sessionId: Option<string>)
    ensures poll.status.None? ==> GetResultsAsWritten(poll, sessionId) == Failure(JSONException(STATUS_FIELD))
    ensures GetResultsAsWritten(poll, sessionId).Success? ==>
              (GetResultsAsWritten(poll, sessionId).value.status == JOB_RUN_FAILED <==> poll.status == Some(JOB_RUN_FAILED))
  {
  }

  /** The two readings agree whenever the engine reports a status. */
  lemma AsWrittenAgreesWithStatus(poll: PollResponse, sessionId: Option<string>)
    requires poll.status.Some?
    ensures GetResultsAsWritten(poll, sessionId) == Success(TranslatePollResponse(poll, sessionId))
  {
  }

  /** The input that shows the difference: an answer with neither status nor error. */
  lemma MissingStatusExample()
    ensures GetResultsAsWritten(PollResponse(None, None, [], []), None) == Failure(JSONException(STATUS_FIELD))
    ensures TranslatePollResponse(PollResponse(None, None, [], []), None)
         == AsyncQueryExecutionResponse(JOB_RUN_FAILED, None, None, Some(""), None)
  {
  }

  /** The store after `updateState(record, CANCELLED)`: only that record's state changes. */
  function CancelledStore(store: map<string, AsyncQueryJobMetadata>, queryId: string): (s: map<string, AsyncQueryJobMetadata>)
    requires queryId in store
    ensures s.Keys == store.Keys
    ensures s[queryId] == store[queryId].(state := SetTo(CANCELLED))
    ensures forall k :: k in store && k != queryId ==> s[k] == store[k]
  {
    store[queryId := store[queryId].(state := SetTo(CANCELLED))]
  }

  /** Cancelling twice leaves the store as cancelling once. */
  lemma CancelIdempotent(store: map<string, AsyncQueryJobMetadata>, queryId: string)
    requires queryId in store
    ensures CancelledStore(CancelledStore(store, queryId), queryId) == CancelledStore(store, queryId)
  {
  }

  /** The update is unconditional: whatever the record's prior state, the result is the same. */
  lemma CancelIgnoresPriorState(store: map<string, AsyncQueryJobMetadata>, queryId: string, prior: StoredState)
    requires queryId in store
    ensures CancelledStore(store[queryId := store[queryId].(state := prior)], queryId) == CancelledStore(store, queryId)
  {
  }

  /** `DefaultSparkSqlFunctionResponseHandle`: a cursor over the decoded rows of an answer. */
  class SparkSqlFunctionResponseHandle {
    const rows: seq<ExprValue>
    const schema: seq<Column>
    var position: nat

    ghost predicate Valid()
      reads this
    {
      position <= |rows|
    }

    constructor (response: PollResponse)
      ensures Valid() && rows == response.rows && schema == response.schema && position == 0
    {
      rows := response.rows;
      schema := response.schema;
      position := 0;
    }

    predicate HasNext()
      reads this
    {
      position < |rows|
    }

    method Next() returns (row: ExprValue)
      requires Valid() && HasNext()
      modifies this
      ensures Valid() && position == old(position) + 1 && row == rows[old(position)]
    {
      row := rows[position];
      position := position + 1;
    }
  }

  class AsyncQueryExecutorService {
    /** The job metadata store, by query id. */
    var jobMetadata: map<string, AsyncQueryJobMetadata>
    /** Every call made on the dispatcher and the store; kept for the contracts only. */
    ghost var history: seq<Event>
    /** The engine config for a request context. */
    const configSupplier: AsyncQueryRequestContext -> SparkExecutionEngineConfig

    constructor (store: map<string, AsyncQueryJobMetadata>, configSupplier: AsyncQueryRequestContext -> SparkExecutionEngineConfig)
      ensures jobMetadata == store && history == [] && this.configSupplier == configSupplier
    {
      jobMetadata := store;
      history := [];
      this.configSupplier := configSupplier;
    }

    /**
     * `createAsyncQuery`: dispatch first; only once the dispatcher has answered, store one
     * record keyed by the answer's query id, and return that id with the answer's session id.
     */
    method CreateAsyncQuery(request: CreateAsyncQueryRequest, context: AsyncQueryRequestContext,
                            dispatch: DispatchQueryRequest -> Result<DispatchQueryResponse, EngineError>)
        returns (r: Result<CreateAsyncQueryResponse, ServiceError>)
      modifies this
      ensures var config := configSupplier(context);
              var dispatchRequest := BuildDispatchRequest(config, request);
              match dispatch(dispatchRequest)
              case Failure(e) =>
                && r == Failure(Engine(e))
                && jobMetadata == old(jobMetadata)
                && history == old(history) + [Dispatched(dispatchRequest)]
              case Success(response) =>
                var metadata := BuildJobMetadata(config, request, response);
                && r == Success(CreateAsyncQueryResponse(response.queryId, response.sessionId))
                && jobMetadata == old(jobMetadata)[response.queryId := metadata]
                && history == old(history) + [Dispatched(dispatchRequest), Stored(metadata)]
    {
      var config := configSupplier(context);
      var dispatchRequest := BuildDispatchRequest(config, request);
      history := history + [Dispatched(dispatchRequest)];
      var answer := dispatch(dispatchRequest);
      if answer.Failure? {
        return Failure(Engine(answer.error));
      }
      var response := answer.value;
      var metadata := BuildJobMetadata(config, request, response);
      jobMetadata := jobMetadata[response.queryId := metadata];
      history := history + [Stored(metadata)];
      return Success(CreateAsyncQueryResponse(response.queryId, response.sessionId));
    }

    /**
     * `getAsyncQueryResults`: NotFound without touching the dispatcher when the id is unknown;
     * otherwise poll once and translate the answer, collecting every decoded row in order.
     * The store never changes.
     */
    method GetAsyncQueryResults(queryId: string, context: AsyncQueryRequestContext,
                                poll: AsyncQueryJobMetadata -> Result<PollResponse, EngineError>)
        returns (r: Result<AsyncQueryExecutionResponse, ServiceError>)
      modifies this
      ensures jobMetadata == old(jobMetadata)
      ensures queryId !in old(jobMetadata) ==>
                r == Failure(AsyncQueryNotFound(NotFoundMessage(queryId))) && history == old(history)
      ensures queryId in old(jobMetadata) ==>
                var metadata := old(jobMetadata)[queryId];
                && history == old(history) + [Polled(metadata)]
                && match poll(metadata)
                   case Failure(e) => r == Failure(Engine(e))
                   case Success(answer) => r == Success(TranslatePollResponse(answer, metadata.sessionId))
    {
      if queryId !in jobMetadata {
        return Failure(AsyncQueryNotFound(NotFoundMessage(queryId)));
      }
      var metadata := jobMetadata[queryId];
      var sessionId := metadata.sessionId;
      history := history + [Polled(metadata)];
      var answer := poll(metadata);
      if answer.Failure? {
        return Failure(Engine(answer.error));
      }
      var json := answer.value;
      if json.status == Some(JOB_RUN_SUCCESS) {
        var handle := new SparkSqlFunctionResponseHandle(json);
        var result: seq<ExprValue> := [];
        while handle.HasNext()
          modifies handle
          invariant handle.Valid()
          invariant result == handle.rows[..handle.position]
          decreases |handle.rows| - handle.position
        {
          var row := handle.Next();
          result := result + [row];
        }
        assert handle.rows[..handle.position] == json.rows;
        return Success(AsyncQueryExecutionResponse(JOB_RUN_SUCCESS, Some(handle.schema), Some(result), None, sessionId));
      }
      return Success(AsyncQueryExecutionResponse(json.status.GetOr(JOB_RUN_FAILED), None, None,
                                                 Some(json.error.GetOr("")), sessionId));
    }

    /**
     * `cancelQuery`: NotFound without touching the dispatcher when the id is unknown; otherwise
     * ask the dispatcher to cancel, then mark the record CANCELLED whatever its state was, and
     * return the dispatcher's answer.
     */
    method CancelQuery(queryId: string, context: AsyncQueryRequestContext,
                       cancel: AsyncQueryJobMetadata -> Result<string, EngineError>)
        returns (r: Result<string, ServiceError>)
      modifies this
      ensures queryId !in old(jobMetadata) ==>
                && r == Failure(AsyncQueryNotFound(NotFoundMessage(queryId)))
                && jobMetadata == old(jobMetadata) && history == old(history)
      ensures queryId in old(jobMetadata) ==>
                var metadata := old(jobMetadata)[queryId];
                match cancel(metadata)
                case Failure(e) =>
                  && r == Failure(Engine(e))
                  && jobMetadata == old(jobMetadata)
                  && history == old(history) + [CancelRequested(metadata)]
                case Success(result) =>
                  && r == Success(result)
                  && jobMetadata == CancelledStore(old(jobMetadata), queryId)
                  && history == old(history) + [CancelRequested(metadata), StateUpdated(metadata, CANCELLED)]
    {
      if queryId !in jobMetadata {
        return Failure(AsyncQueryNotFound(NotFoundMessage(queryId)));
      }
      var metadata := jobMetadata[queryId];
      history := history + [CancelRequested(metadata)];
      var result := cancel(metadata);
      if result.Failure? {
        return Failure(Engine(result.error));
      }
      jobMetadata := jobMetadata[queryId := metadata.(state := SetTo(CANCELLED))];
      history := history + [StateUpdated(metadata, CANCELLED)];
      return Success(result.value);
    }
  }
}
