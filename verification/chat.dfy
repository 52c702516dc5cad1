/** The decision the chat endpoint makes for one request: which status code
    it answers with and which response it carries. SQL generation and SQL
    execution are parameters; each either returns or raises. */
module Chat {
  import opened Wrappers
  import opened Text
  import opened Intents
  import opened Results
  import opened Formatting

  /** A parsed JSON request body (numbers are integers here). */
  datatype Json =
    | JNull
    | JBool(b: bool)
    | JInt(n: int)
    | JString(s: string)
    | JArray(items: seq<Json>)
    | JObject(fields: map<string, Json>)

  /** Python truthiness of a parsed body (`not data` is its negation). */
  predicate Truthy(v: Json) {
    match v
    case JNull => false
    case JBool(b) => b
    case JInt(n) => n != 0
    case JString(s) => s != ""
    case JArray(items) => items != []
    case JObject(fields) => fields != map[]
  }

  /** Python's `key in v`: a substring test on a string, an element test on
      a list, a key test on a dict, and a TypeError on anything else. */
  function In(key: string, v: Json): (r: Outcome<bool>)
    ensures r.Raised? <==> !(v.JString? || v.JArray? || v.JObject?)
    ensures v.JObject? ==> r == Returned(key in v.fields)
  {
    match v
    case JString(s) => Returned(Contains(s, key))
    case JArray(items) => Returned(JString(key) in items)
    case JObject(fields) => Returned(key in fields)
    case _ => Raised
  }

  /** Python's `v[key]` with a string key: only a dict holding the key
      answers; anything else raises. */
  function Index(v: Json, key: string): (r: Outcome<Json>)
    ensures r.Returned? <==> v.JObject? && key in v.fields
  {
    match v
    case JObject(fields) => if key in fields then Returned(fields[key]) else Raised
    case _ => Raised
  }

  /** The detector applied to whatever the body's "query" holds: the rule
      chain runs on any value Python's `in` accepts. */
  function DetectOn(query: Json): (r: Outcome<Detection>)
    ensures query.JString? ==> r == Returned(DetectIntentAndEntities(query.s))
    ensures r.Raised? <==> In("manager", query).Raised?
  {
    match query
    case JString(s) => Returned(DetectIntentAndEntities(s))
    case JArray(items) => Returned(Detection(Classify(k => JString(k) in items), map[]))
    case JObject(fields) => Returned(Detection(Classify(k => k in fields), map[]))
    case _ => Raised
  }

  /** What the SQL executor returns: the fetched rows with the cursor's
      column names, or the text of an sqlite error. */
  datatype Executed = Fetched(rows: seq<Row>, columns: seq<string>) | SqlFailed(message: string)

  /** The (result, columns) pair handed on to the formatter. */
  function AsResult(e: Executed): (r: QueryResult)
    ensures r != NoResult
  {
    match e
    case Fetched(rows, columns) => Rows(rows, columns)
    case SqlFailed(message) => DbError(message)
  }

  datatype Response =
    | ProvideQuery          // "Please provide a valid 'query' field in the request."
    | InvalidRequest        // "Invalid JSON or missing 'query' field."
    | NotUnderstood         // "I can't understand your request."
    | InternalError         // "An internal server error occurred."
    | Formatted(message: Message)

  datatype Reply = Reply(status: int, response: Response)

  /** The handler of `POST /api/v1/chat`. The outer `try` turns a TypeError
      from `in`, from indexing or from the detector into a 400; the inner
      one turns a failure of generation or execution into a 500 (the
      formatter catches its own errors). Generation concatenates the query
      to a string prefix, so a query that is not a string fails there. */
  function HandleChat(body: Json, generate: string -> Outcome<string>, execute: string -> Outcome<Executed>): (r: Reply)
    ensures r.status in {200, 400, 500}
    ensures r.status == 200 <==> r.response.Formatted?
    ensures r.status == 500 <==> r.response == InternalError
  {
    if !Truthy(body) then Reply(400, ProvideQuery)
    else match In("query", body)
      case Raised => Reply(400, InvalidRequest)
      case Returned(present) =>
        if !present then Reply(400, ProvideQuery)
        else match Index(body, "query")
          case Raised => Reply(400, InvalidRequest)
          case Returned(query) =>
            match DetectOn(query)
            case Raised => Reply(400, InvalidRequest)
            case Returned(detection) =>
              if detection.intent.None? then Reply(400, NotUnderstood)
              else if !query.JString? then Reply(500, InternalError)
              else match generate(query.s)
                case Raised => Reply(500, InternalError)
                case Returned(sql) =>
                  match execute(sql)
                  case Raised => Reply(500, InternalError)
                  case Returned(executed) =>
                    Reply(200, Formatted(Format(AsResult(executed), Label(detection.intent.value))))
  }

  // ---------------------------------------------------------------------
  // What the endpoint promises.

  /** A `null` body, or an object without "query", is answered with 400 and
      a request for the field. */
  lemma MissingQueryRejected(body: Json, generate: string -> Outcome<string>, execute: string -> Outcome<Executed>)
    requires body == JNull || (body.JObject? && "query" !in body.fields)
    ensures HandleChat(body, generate, execute) == Reply(400, ProvideQuery)
  {
  }

  /** Every 400 is decided before SQL is generated: the reply does not
      depend on the generator or the executor. */
  lemma {:induction false} RejectionIgnoresPipeline(body: Json,
      generate: string -> Outcome<string>, execute: string -> Outcome<Executed>,
      generate': string -> Outcome<string>, execute': string -> Outcome<Executed>)
    requires HandleChat(body, generate, execute).status == 400
    ensures HandleChat(body, generate', execute') == HandleChat(body, generate, execute)
  {
  }

  /** Only an object body with a "query" key can get past the 400s. */
  lemma {:induction false} AcceptedBodiesAreQueries(body: Json,
      generate: string -> Outcome<string>, execute: string -> Outcome<Executed>)
    requires HandleChat(body, generate, execute).status != 400
    ensures body.JObject? && "query" in body.fields
  {
  }

  /** A text query the detector cannot classify is answered with 400. */
  lemma {:induction false} UnknownIntentRejected(body: Json, query: string,
      generate: string -> Outcome<string>, execute: string -> Outcome<Executed>)
    requires body.JObject? && "query" in body.fields && body.fields["query"] == JString(query)
    requires DetectIntentAndEntities(query).intent == None
    ensures HandleChat(body, generate, execute) == Reply(400, NotUnderstood)
  {
  }

  /** For a classified text query, a raising generator or executor gives
      500; otherwise the reply is 200 with the formatted result. */
  lemma {:induction false} ClassifiedQueryOutcome(body: Json, query: string, i: Intent,
      generate: string -> Outcome<string>, execute: string -> Outcome<Executed>)
    requires body.JObject? && "query" in body.fields && body.fields["query"] == JString(query)
    requires DetectIntentAndEntities(query).intent == Some(i)
    ensures var r := HandleChat(body, generate, execute);
      if generate(query).Raised? || execute(generate(query).value).Raised? then r == Reply(500, InternalError)
      else r == Reply(200, Formatted(Format(AsResult(execute(generate(query).value).value), Label(i))))
  {
  }

  /** A classified query that is a list or an object reaches generation,
      which cannot take it: 500. */
  lemma {:induction false} NonTextQueryFails(body: Json,
      generate: string -> Outcome<string>, execute: string -> Outcome<Executed>)
    requires body.JObject? && "query" in body.fields
    requires body.fields["query"].JArray? || body.fields["query"].JObject?
    requires DetectOn(body.fields["query"]).value.intent.Some?
    ensures HandleChat(body, generate, execute) == Reply(500, InternalError)
  {
  }

  /** A query that is not a container at all makes the detector raise: 400. */
  lemma {:induction false} ScalarQueryRejected(body: Json,
      generate: string -> Outcome<string>, execute: string -> Outcome<Executed>)
    requires body.JObject? && "query" in body.fields
    requires !(body.fields["query"].JString? || body.fields["query"].JArray? || body.fields["query"].JObject?)
    ensures HandleChat(body, generate, execute) == Reply(400, InvalidRequest)
  {
  }

  /** A 200 never carries "Invalid intent" nor a per-intent "no ... found"
      message. */
  lemma {:induction false} AnswersAreMeaningful(body: Json,
      generate: string -> Outcome<string>, execute: string -> Outcome<Executed>)
    requires HandleChat(body, generate, execute).status == 200
    ensures HandleChat(body, generate, execute).response.message
        !in {InvalidIntent, NoSalaryData, NoEmployeeDetails, NoEmployees, NoManager}
  {
    var query := body.fields["query"];
    var i := DetectOn(query).value.intent.value;
    var executed := execute(generate(query.s).value).value;
    DetectedIntentsAreFormatted(AsResult(executed), i);
    PerIntentEmptyMessagesUnreachable(AsResult(executed), Label(i));
  }

  /** A classified text query whose SQL fails in the database is answered
      with 200 and the database's error text. */
  lemma {:induction false} DatabaseErrorAnswered(body: Json, query: string, i: Intent,
      generate: string -> Outcome<string>, execute: string -> Outcome<Executed>, sql: string, e: string)
    requires body.JObject? && "query" in body.fields && body.fields["query"] == JString(query)
    requires DetectIntentAndEntities(query).intent == Some(i)
    requires generate(query) == Returned(sql) && execute(sql) == Returned(SqlFailed(e))
    ensures HandleChat(body, generate, execute) == Reply(200, Formatted(DatabaseError(e)))
  {
  }

  /** The worked example: a total-salary question over rows with one
      `Salary` column is answered with the total of that column. */
  lemma {:induction false} TotalSalaryEndToEnd(body: Json,
      generate: string -> Outcome<string>, execute: string -> Outcome<Executed>,
      sql: string, rows: seq<Row>, columns: seq<string>, k: nat)
    requires body == JObject(map["query" := JString("What is the total salary in Marketing")])
    requires generate("What is the total salary in Marketing") == Returned(sql)
    requires execute(sql) == Returned(Fetched(rows, columns))
    requires Rectangular(rows, columns) && |rows| > 0 && OnlyAt(columns, "Salary", k)
    ensures HandleChat(body, generate, execute) == Reply(200, Formatted(TotalSalary(SalaryTotal(Column(rows, k)))))
  {
    var query := "What is the total salary in Marketing";
    assert "query" in body.fields && body.fields != map[];
    assert Index(body, "query") == Returned(JString(query));
    TotalSalaryQuestion();
    ClassifiedQueryOutcome(body, query, SalaryQuery, generate, execute);
    SalaryTotalReported(rows, columns, k);
  }
}
