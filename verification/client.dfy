/** The two clients, `Vatify` (blocking) and `VatifyAsync` (non-blocking),
    as a pure state machine over their one piece of state, the lazily created
    connection `_client`, plus the request/response mapping of their three
    operations. The network exchange itself is a parameter: the `Reply` the
    service gave to the request the operation sent. */
module Client {
  import opened Wrappers
  import opened JsonValues
  import opened Models
  import opened Errors

  const DefaultBaseUrl: string := "https://api.vatifytax.app"
  const DefaultTimeout: real := 10.0
  const UserAgent: string := "vatify-python/0.1"

  /** Which client class: `Vatify` or `VatifyAsync`. */
  datatype Variant = Blocking | NonBlocking

  /** An `httpx.Client` / `httpx.AsyncClient`. `serial` tells connections
      apart: the n-th connection a session creates has serial n. */
  datatype Connection = Connection(
    serial: nat,
    variant: Variant,
    baseUrl: string,
    timeout: real,
    headers: map<string, string>,
    followRedirects: bool)

  /** A client instance: its configuration, its `_client` field, and how many
      connections it has created so far. */
  datatype Session = Session(
    variant: Variant,
    apiKey: string,
    baseUrl: string,
    timeout: real,
    client: Option<Connection>,
    created: nat)

  /** `Vatify(api_key, base_url, timeout)`: no connection yet. */
  function NewSession(variant: Variant, apiKey: string, baseUrl: string, timeout: real): (s: Session)
    ensures s.client == None && s.created == 0
    ensures Inv(s)
    ensures var c := EnsureClient(s).conn;
            c.variant == variant && c.baseUrl == baseUrl && c.timeout == timeout
            && c.headers == Headers(apiKey)
            && "Authorization" in c.headers && c.headers["Authorization"] == "Bearer " + apiKey
  {
    Session(variant, apiKey, baseUrl, timeout, None, 0)
  }

  /** `Vatify(api_key)` / `VatifyAsync(api_key)`: the dataclass defaults for
      the base URL and the timeout. */
  function DefaultSession(variant: Variant, apiKey: string): (s: Session)
    ensures s.client == None && Inv(s)
    ensures var c := EnsureClient(s).conn;
            c.baseUrl == DefaultBaseUrl && c.timeout == DefaultTimeout && c.variant == variant
            && c.headers == Headers(apiKey)
  {
    NewSession(variant, apiKey, DefaultBaseUrl, DefaultTimeout)
  }

  /** The headers every connection carries. */
  function Headers(apiKey: string): map<string, string> {
    map["Authorization" := "Bearer " + apiKey, "User-Agent" := UserAgent]
  }

  /** `c` is configured as session `s` would configure it. */
  predicate Serves(c: Connection, s: Session) {
    && c.variant == s.variant
    && c.baseUrl == s.baseUrl
    && c.timeout == s.timeout
    && c.headers == Headers(s.apiKey)
    && c.followRedirects
  }

  /** The session invariant: the held connection, if any, was created by this
      session (its serial is below the count) and is configured by it. */
  predicate Inv(s: Session) {
    s.client.Some? ==> s.client.value.serial < s.created && Serves(s.client.value, s)
  }

  /** Two sessions agree on everything but the connection and the count. */
  predicate SameConfig(s: Session, t: Session) {
    s.variant == t.variant && s.apiKey == t.apiKey && s.baseUrl == t.baseUrl && s.timeout == t.timeout
  }

  datatype Ensured = Ensured(session: Session, conn: Connection)

  /** `_ensure_client`: creates a connection only when there is none, and
      returns the held one otherwise. */
  function EnsureClient(s: Session): (e: Ensured)
    ensures e.session.client == Some(e.conn)
    ensures SameConfig(s, e.session)
    ensures s.client.Some? ==> e == Ensured(s, s.client.value)
    ensures s.client.None? ==> e.conn.serial == s.created && e.session.created == s.created + 1
    ensures s.client.None? ==> Serves(e.conn, s) && "Authorization" in e.conn.headers
                               && e.conn.headers["Authorization"] == "Bearer " + s.apiKey
    ensures Inv(s) ==> Inv(e.session)
  {
    match s.client
    case Some(c) => Ensured(s, c)
    case None =>
      var c := Connection(s.created, s.variant, s.baseUrl, s.timeout, Headers(s.apiKey), true);
      Ensured(s.(client := Some(c), created := s.created + 1), c)
  }

  datatype Closed = Closed(session: Session, released: Option<Connection>)

  /** `close` (blocking) and `aclose` (non-blocking): release the held
      connection, if any, and forget it. */
  function Close(s: Session): (c: Closed)
    ensures c.session.client == None
    ensures c.released == s.client
    ensures SameConfig(s, c.session) && c.session.created == s.created
    ensures s.client == None ==> c.session == s
    ensures Inv(s) ==> Inv(c.session)
  {
    if s.client.Some? then Closed(s.(client := None), s.client) else Closed(s, None)
  }

  // ---------- The exchange ----------

  datatype Method = Get | Post

  datatype Request = Request(verb: Method, path: string, body: Option<Json>)

  /** A request and the connection it went out on. */
  datatype Sent = Sent(via: Connection, request: Request)

  /** What the network gave back: a transport failure (an `httpx.HTTPError`
      with its description), or a response with its status, raw bytes, text
      and JSON decoding (`None` when the body is not JSON). */
  datatype Reply =
    | TransportFailure(description: string)
    | Response(status: int, content: seq<byte>, text: string, json: Option<Json>)

  /** The outcome of one operation: the new session, the request sent (if
      any) and the result. */
  datatype Call<T> = Call(session: Session, sent: Option<Sent>, result: Result<T, Error>)

  /** The raw body the variant attaches to an HTTP failure: `resp.text` or
      `await resp.aread()`. */
  function RawBody(v: Variant, content: seq<byte>, text: string): Details {
    match v
    case Blocking => TextDetails(text)
    case NonBlocking => ByteDetails(content)
  }

  /** The body of an operation's `try` block after the request: a status of
      400 or more raises a `VatifyError` with that status and the raw body,
      without decoding it; otherwise the JSON body is decoded. Behind the
      `except httpx.HTTPError` it ends the exchange as `MapsReply` says. */
  function Respond<T(==)>(v: Variant, reply: Reply, failure: string, decode: Json -> Decoded<T>): (r: Result<T, Thrown>)
    ensures MapsReply(v, reply, failure, decode, CatchHttpError(r))
  {
    match reply
    case TransportFailure(d) => Failure(ThrownHttp(d))
    case Response(status, content, text, json) =>
      if status >= 400 then
        Failure(ThrownVatify(VatifyError(failure, Some(status), Some(RawBody(v, content, text)))))
      else match json
        case None => Failure(ThrownSchema(NotJson))
        case Some(j) =>
          match decode(j)
          case Success(x) => Success(x)
          case Failure(e) => Failure(ThrownSchema(e))
  }

  /** The error a failed HTTP status maps to. */
  function StatusError(v: Variant, reply: Reply, failure: string): Error
    requires reply.Response?
  {
    VatifyErr(VatifyError(failure, Some(reply.status), Some(RawBody(v, reply.content, reply.text))))
  }

  /** What a 2xx-style reply (status below 400) decodes to under `decode`. */
  function Decoding<T>(reply: Reply, decode: Json -> Decoded<T>): Result<T, Error>
    requires reply.Response? && reply.status < 400
  {
    match reply.json
    case None => Failure(SchemaErr(NotJson))
    case Some(j) =>
      match decode(j)
      case Success(x) => Success(x)
      case Failure(e) => Failure(SchemaErr(e))
  }

  /** The three ways an exchange ends, stated once for every operation:
      transport failure, HTTP failure (status kept, body raw), decoding. */
  predicate MapsReply<T(==)>(v: Variant, reply: Reply, failure: string, decode: Json -> Decoded<T>, result: Result<T, Error>) {
    && (reply.TransportFailure? ==>
          result == Failure(VatifyErr(VatifyError(NetworkErrorPrefix + reply.description, None, None))))
    && (reply.Response? && reply.status >= 400 ==> result == Failure(StatusError(v, reply, failure)))
    && (reply.Response? && reply.status < 400 ==> result == Decoding(reply, decode))
  }

  // ---------- Operations ----------

  const ValidationFailed: string := "Validation failed"
  const CalculationFailed: string := "Calculation failed"
  const RatesFailed: string := "Fetching rates failed"

  function ValidateRequest(vatNumber: string): Request {
    Request(Post, "/v1/validate-vat", Some(JObj(map["vat_number" := JStr(vatNumber)])))
  }

  /** `validate_vat(vat_number)` of either client. */
  function ValidateVat(s: Session, vatNumber: string, reply: Reply): (o: Call<ValidationResult>)
    ensures o.session == EnsureClient(s).session
    ensures o.sent == Some(Sent(EnsureClient(s).conn, ValidateRequest(vatNumber)))
    ensures MapsReply(s.variant, reply, ValidationFailed, DecodeValidationResult, o.result)
  {
    var e := EnsureClient(s);
    var r := Respond(s.variant, reply, ValidationFailed, DecodeValidationResult);
    Call(e.session, Some(Sent(e.conn, ValidateRequest(vatNumber))), CatchHttpError(r))
  }

  /** The keyword arguments of `calculate`. Supplier and customer are given
      as the dicts `model_dump` would write for them, the form in which
      `CalculationRequest` builds and checks them. */
  datatype CalculateArgs = CalculateArgs(
    amount: real,
    basis: string,
    rateType: string,
    supplyDate: string,
    supplier: Supplier,
    customer: Supplier,
    supplyType: string,
    b2x: string,
    categoryHint: Option<string>)

  /** The keyword arguments `calculate` hands to `CalculationRequest`. */
  function RequestFields(a: CalculateArgs): Fields {
    map[
      "amount" := JNum(a.amount),
      "basis" := JStr(a.basis),
      "rate_type" := JStr(a.rateType),
      "supply_date" := JStr(a.supplyDate),
      "supplier" := SupplierJson(a.supplier),
      "customer" := SupplierJson(a.customer),
      "supply_type" := JStr(a.supplyType),
      "b2x" := JStr(a.b2x),
      "category_hint" := OptJson(a.categoryHint)]
  }

  /** `calculate(...)` of either client. The connection is ensured first;
      then the request is built and checked outside the `try`, so an invalid
      request sends nothing and fails with a schema error, never a
      `VatifyError`. */
  function Calculate(s: Session, args: CalculateArgs, reply: Reply): (o: Call<CalculationResult>)
    ensures o.session == EnsureClient(s).session
    ensures DecodeCalculationRequest(RequestFields(args)).Failure? ==>
              o.sent == None && o.result == Failure(SchemaErr(DecodeCalculationRequest(RequestFields(args)).error))
    ensures DecodeCalculationRequest(RequestFields(args)).Success? ==>
              && o.sent.Some?
              && o.sent.value.via == EnsureClient(s).conn
              && o.sent.value.request.verb == Post
              && o.sent.value.request.path == "/v1/calculate"
              && o.sent.value.request.body == Some(CalculationRequestJson(DecodeCalculationRequest(RequestFields(args)).value))
              && MapsReply(s.variant, reply, CalculationFailed, DecodeCalculationResult, o.result)
  {
    var e := EnsureClient(s);
    match DecodeCalculationRequest(RequestFields(args))
    case Failure(err) => Call(e.session, None, Failure(SchemaErr(err)))
    case Success(req) =>
      var payload := CalculationRequestJson(req);
      var r := Respond(s.variant, reply, CalculationFailed, DecodeCalculationResult);
      Call(e.session, Some(Sent(e.conn, Request(Post, "/v1/calculate", Some(payload)))), CatchHttpError(r))
  }

  function RatesRequest(countryCode: string): Request {
    Request(Get, "/v1/rates/" + countryCode, None)
  }

  /** `Vatify.rates(country_code)`: expects a rates table. */
  function SyncRates(s: Session, countryCode: string, reply: Reply): (o: Call<RatesTable>)
    requires s.variant == Blocking
    ensures o.session == EnsureClient(s).session
    ensures o.sent == Some(Sent(EnsureClient(s).conn, RatesRequest(countryCode)))
    ensures MapsReply(s.variant, reply, RatesFailed, j => DecodeRatesTable(j, countryCode), o.result)
  {
    var e := EnsureClient(s);
    var r := Respond(s.variant, reply, RatesFailed, j => DecodeRatesTable(j, countryCode));
    Call(e.session, Some(Sent(e.conn, RatesRequest(countryCode))), CatchHttpError(r))
  }

  /** `VatifyAsync.rates(country_code)`: expects a list of rates. */
  function AsyncRates(s: Session, countryCode: string, reply: Reply): (o: Call<seq<Rate>>)
    requires s.variant == NonBlocking
    ensures o.session == EnsureClient(s).session
    ensures o.sent == Some(Sent(EnsureClient(s).conn, RatesRequest(countryCode)))
    ensures MapsReply(s.variant, reply, RatesFailed, DecodeRateList, o.result)
  {
    var e := EnsureClient(s);
    var r := Respond(s.variant, reply, RatesFailed, DecodeRateList);
    Call(e.session, Some(Sent(e.conn, RatesRequest(countryCode))), CatchHttpError(r))
  }
}
