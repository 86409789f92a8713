# vatify-python client core, modelled in Dafny

This project models the request/response mapping layer of the `vatify` Python
client (`src/vatify/client.py`). The client talks to a VAT compliance web service. It covers:

- the pydantic models and the checks their constructors perform:
  `Supplier`, `CalculationRequest`, `ValidationResult`, `CalculationResult`,
  `Rate` and `Rates`;
- the `VatifyError` type, and the `try` / `except httpx.HTTPError` wrapper
  around every operation;
- the three operations of both clients, `Vatify` (blocking) and `VatifyAsync`
  (non-blocking): `validate_vat`, `calculate` and `rates`;
- the connection lifecycle: `_ensure_client`, `close` and `aclose`.

HTTP is abstracted away. An operation receives the `Reply` the network gave.
That is either a transport failure (an `httpx.HTTPError` with its description)
or a response with status, raw bytes, text and JSON decoding. The operation
returns a `Call` with three parts:

- the new session state;
- the request it sent, if any, and the connection it went out on;
- a `Result` whose error side is one of these:
  - a `VatifyError` with a status (HTTP status 400 or more);
  - a `VatifyError` without a status (transport failure);
  - a `SchemaError`, a local decoding or validation failure that is not a
    `VatifyError`.

Modules:

- `Wrappers`: `Option` and `Result`.
- `JsonValues`: the decoded JSON value.
- `Models`: the pydantic models, their field checks and the decoders of the
  response bodies.
- `Errors`: `VatifyError`, what can be raised inside the `try`, and
  `CatchHttpError`.
- `Client`: the session state machine and the four operations. The two
  clients share `ValidateVat` and `Calculate`, since their logic is the same.
  The rates operations stay separate as `SyncRates` and `AsyncRates`,
  because the two clients decode the rates body differently.
- `ClientProperties`: lemmas that relate several calls.

The model follows the code as written:

- A transport failure carries its description in the message
  (`"Network error: " + description`). `details` stays `None`, because the
  code passes no details.
- `Rates.standard_rate` is declared `str`, but the blocking client assigns it
  after construction. pydantic does not validate assignments, so the model
  keeps whatever JSON value the body holds (`RatesTable.standardRate: Json`).
- The blocking `rates` accepts only a table, bare or inside a `{"rates": ...}`
  envelope. It fails on a list, even on a list inside the envelope that the
  comment at line 119 names. The non-blocking `rates` accepts only a list, or
  the degenerate empty mapping or empty string. The model keeps both
  behaviours as written (`SyncRatesRejectsLists`, `AsyncRatesRejectsTable`).
- Country codes are checked for length only. No case or ISO-3166 check is
  made.
- The non-blocking client attaches the raw bytes (`await resp.aread()`) as
  the details of an HTTP failure. The blocking client attaches the text
  (`resp.text`).
- `calculate` calls `_ensure_client` before it builds the request. An invalid
  request therefore still creates the connection. It sends nothing and fails
  with a schema error, not a `VatifyError`.

To make "a fresh connection" expressible, each session counts the connections
it has created, and each connection carries its serial number. The Python
code relies on object identity for the same thing. Two names differ from
the source because they are Dafny keywords: `Rate.label` is the field
`caption`, and a request's HTTP method is the field `verb`.

## Model

| member | source | states |
|---|---|---|
| Models.DecodeSupplier | src/vatify/client.py:19-21 | a supplier is accepted exactly when `country_code` is a string of exactly two characters and `vat_number` is absent, null or a string. The accepted supplier keeps that code. Any other length fails as out of range on `country_code`. |
| Models.SupplierRoundTrip | src/vatify/client.py:19-21 | dumping a valid supplier and building a supplier from the dump gives the same supplier back |
| ClientProperties.SupplierAcceptedIff | src/vatify/client.py:19-21 | for every country code, with or without a VAT number, the supplier is accepted exactly when the code has length 2 |
| Models.ParseBasis | src/vatify/client.py:26 | `basis` is accepted exactly for "net" and "gross", and the parsed value prints back as the same string |
| Models.ParseRateType | src/vatify/client.py:27 | `rate_type` is accepted exactly for standard, reduced, super_reduced, parking and zero, and the parsed value prints back as the same string |
| Models.ParseSupplyType | src/vatify/client.py:31 | `supply_type` is accepted exactly for "goods" and "services", and the parsed value prints back as the same string |
| Models.ParseB2x | src/vatify/client.py:32 | `b2x` is accepted exactly for "B2C" and "B2B", and the parsed value prints back as the same string |
| Models.EnumNamesRoundTrip | src/vatify/client.py:26-32 | every value of the four closed enumerations parses back from its name |
| Models.DecodeCalculationRequest | src/vatify/client.py:24-33 | a request is accepted exactly when all of these hold: `amount` is a number > 0; each literal field is absent or one of its names; `supply_date` is any string; both parties are accepted suppliers; `category_hint` is absent, null or a string. The result keeps the amount, the date, both parties (VAT numbers included) and the hint (null or absent gives none). An absent literal takes its default (net, standard, goods, B2C). An amount ≤ 0 fails on `amount`. |
| Models.DecodeSpelledRequest | src/vatify/client.py:24-33 | any keyword arguments that carry a valid request's values under the declared field names build exactly that request |
| Models.CalculationRequestRoundTrip | src/vatify/client.py:24-33 | `model_dump` of a valid request decodes back to the same request, so the payload carries every field |
| ClientProperties.RequestDefaults | src/vatify/client.py:24-33 | given only amount, date, supplier and customer, the request is net / standard / goods / B2C with no category hint |
| Models.DecodeValidationResult | src/vatify/client.py:11-17 | the body is accepted exactly when all of these hold: it is a mapping; it has a string `vat_number` and a boolean `valid`; the optional strings are absent, null or strings; `meta` is absent or a mapping. The result keeps `vat_number` and `valid` as given. Each optional string is kept when present; absent or null gives none. An absent `meta` becomes the empty map, a present one is kept. A non-mapping body fails. |
| ClientProperties.ValidationIgnoresExtraFields | src/vatify/client.py:93-95 | adding a key the model does not declare never changes the outcome of decoding |
| ClientProperties.InvalidNumberIsAResult | src/vatify/client.py:87-97 | a successful reply with `valid: false` is returned as a result with `valid == false`, not as an error |
| Models.DecodeCalculationResult | src/vatify/client.py:37-45 | the body is accepted exactly when every required field is present with its type and `mechanism` is optional. The result carries the body's country code, rate, amounts, mechanism (null or absent gives none), every message in order, and check status. |
| Models.CalculationResultRoundTrip | src/vatify/client.py:37-45 | every calculation result, written as the JSON the service sends, decodes back to itself |
| Models.DecodeRate | src/vatify/client.py:47-49 | a rate is accepted exactly when it is a mapping with a numeric `rate` and a string `label`, and it keeps both |
| Models.DecodeRateSeq | src/vatify/client.py:124 | a list decodes exactly when every element is a rate. The result has one rate per element, in the same order. |
| Models.DecodeRateIterable | src/vatify/client.py:181 | iterating a list decodes it element by element. An empty mapping or an empty string gives no rates. Nothing other than a list, an empty mapping or an empty string succeeds. |
| Models.DecodeRatesTable | src/vatify/client.py:118-125 | the table is accepted exactly when the unwrapped body is a mapping with a string `country`, a `standard_rate`, and a `reduced_rates` that decodes. `country` and `standard_rate` come from the body. The reduced rates keep their length and order. A list body fails. |
| Models.DecodeRateList | src/vatify/client.py:179-181 | an unwrapped list decodes to one rate per element, in order. Only a list or a degenerate empty value succeeds. |
| Errors.CatchHttpError | src/vatify/client.py:96-97 | only transport errors are caught, and they become a `VatifyError` with no status and no details whose message is "Network error: " plus the description. A `VatifyError` raised inside passes unchanged. Schema failures escape as they are. |
| Client.NewSession | src/vatify/client.py:64-79 | `Vatify(api_key, base_url, timeout)` holds no connection and has created none. Its first connection uses the given base URL and timeout and carries `Authorization: Bearer <api_key>` and the user agent. |
| Client.DefaultSession | src/vatify/client.py:64-69 | `Vatify(api_key)` holds no connection, and its first connection goes to the default base URL with a 10-second timeout and the key's headers |
| Client.Respond | src/vatify/client.py:89-97 | the `try` body, seen through `except httpx.HTTPError`, ends every exchange as `MapsReply` states: a transport failure becomes a status-less network error, a status ≥ 400 a `VatifyError` with the status and raw body, and a lower status the decoded body or a schema error |
| Client.EnsureClient | src/vatify/client.py:71-79 | a connection is created only when none is held. It gets the next serial and the header `Authorization: "Bearer " + api_key`. Otherwise the held connection is returned and nothing changes. The session invariant is preserved. |
| Client.Close | src/vatify/client.py:81-84 | after close no connection is held. The held one, if any, is the one released. Closing with none held changes nothing. |
| Client.ValidateVat | src/vatify/client.py:87-97 | sends `POST /v1/validate-vat` with `{"vat_number": ...}` on the ensured connection. A transport failure, an HTTP failure and a successful reply each map as `MapsReply` states. The same holds for `VatifyAsync.validate_vat` (lines 152-160). |
| Client.Calculate | src/vatify/client.py:100-109 | the connection is ensured first. An invalid request sends nothing and fails with its schema error. A valid one sends `POST /v1/calculate` with the dumped request, and the reply maps as in `ValidateVat`. The same holds for the async variant (lines 162-171). |
| Client.SyncRates | src/vatify/client.py:112-127 | sends `GET /v1/rates/{country_code}` on the ensured connection. A successful reply decodes as a rates table. |
| Client.AsyncRates | src/vatify/client.py:173-183 | sends `GET /v1/rates/{country_code}` on the ensured connection. A successful reply decodes as a list of rates. |
| ClientProperties.EnsureClientIdempotent | src/vatify/client.py:71-79 | a second `_ensure_client` returns the same connection and leaves the session as it is |
| ClientProperties.CloseIdempotent | src/vatify/client.py:81-84 | a second close releases nothing and changes nothing |
| ClientProperties.FreshConnectionAfterClose | src/vatify/client.py:71-84 | a call after close gets a connection with a newer serial, configured with the same headers |
| ClientProperties.AtMostOneLiveConnection | src/vatify/client.py:71-84 | after any sequence of operations and closes, the connections were created with serials 0, 1, 2 and so on. Every one of them is released except the one held, and the held one is the latest. |
| ClientProperties.HttpFailureKeepsStatus | src/vatify/client.py:91-92 | for each client, `validate_vat` and `rates` turn a status ≥ 400 into a `VatifyError` with the operation's own message, that status and the raw body. The body is text for the blocking client and bytes for the non-blocking one. `calculate` does the same once its request was sent. None of them gives a schema error, and the raised error is not wrapped again as a network error. |
| ClientProperties.HttpFailureIgnoresJson | src/vatify/client.py:91-93 | two failed responses that differ only in their JSON give the same result, so the body of a failure is never decoded |
| ClientProperties.TransportFailureHasNoStatus | src/vatify/client.py:96-97 | a transport failure gives a `VatifyError` with no status |
| ClientProperties.CalculateSendsIff | src/vatify/client.py:100-104 | `calculate` sends a request exactly when the arguments meet the request model's constraints. The payload decodes back to the arguments. When nothing is sent, the failure is a schema error. |
| ClientProperties.SyncRatesIgnoresCountryArgument | src/vatify/client.py:121-122 | the blocking table's result does not depend on the `country_code` argument, because the body's `country` overwrites the default |
| ClientProperties.SyncRatesRepeatable | src/vatify/client.py:112-125 | asking twice against the same reply gives the same result, on the same connection |
| Models.EnvelopeIsTransparent | src/vatify/client.py:120 | a `{"rates": ...}` envelope, with any other keys, is removed exactly once, so a body that is not itself an envelope decodes the same bare or wrapped in both clients (line 180 for the non-blocking one) |
| ClientProperties.SyncRatesEnvelope | src/vatify/client.py:118-120 | wrapping a table in `{"rates": ...}` does not change the blocking client's result (the special case of `Models.EnvelopeIsTransparent` with no other keys) |
| ClientProperties.SyncRatesRejectsLists | src/vatify/client.py:120-121 | the blocking client fails on a bare list and on a list inside the envelope |
| ClientProperties.AsyncRatesRejectsTable | src/vatify/client.py:180-181 | the non-blocking client fails on a non-empty mapping without "rates" |
| ClientProperties.AsyncRatesKeepOrder | src/vatify/client.py:179-181 | a list of rates decodes to one rate per element, in order, bare or wrapped |
| ClientProperties.RatesShapes | src/vatify/client.py:118-125 | the wrapped DE table decodes to country "DE", standard rate "19" and one reduced rate of 7 labelled "reduced". The bare list decodes to that one rate. |

## Left out

- The HTTP transport (sockets, TLS, redirects, timeouts): a `Reply` value stands for it. `follow_redirects=True` is recorded on the connection but has no effect in the model.
- Decoding of the body into text and JSON: the `Reply` carries both. `json == None` stands for `json.JSONDecodeError`, a local failure.
- async/await suspension, cancellation and concurrency. The async client's logic is the same pure functions; only its `rates` and its failure details differ.
- Floating point: `amount`, `applied_rate`, `net`, `vat`, `gross` and `rate` are reals. Only the `> 0` check on `amount` is modelled.
- pydantic lax-mode coercion: string fields accept only JSON strings, float fields only JSON numbers, bool fields only JSON booleans. pydantic would also accept numeric strings for floats and "true"/1 for booleans.
- Models.DecodeCalculationRequest: reports only the first failing field, in declaration order. pydantic collects every failing field in one `ValidationError`.
- Key order of `model_dump` output, and duplicate keys in a JSON object: objects are maps, and a repeated key keeps its last value.
- Client.Calculate: its arguments are typed (`basis` is a string and so on). Passing a value of another Python type would fail in pydantic, and the model does not express that call. The supplier and customer are modelled as the dicts `model_dump` would write for them, which `CalculationRequest` validates. pydantic passes an already built `Supplier` instance through unchecked. The model assumes the instance came from the constructor and so passed the same checks; an instance changed by later attribute assignment is not modelled.
- The `_client` argument of the dataclass constructors: a client is assumed to start without a connection.
- Exception chaining: `raise VatifyError(...) from e` sets `__cause__` to the `httpx.HTTPError`. The model keeps the description in the message and does not record the cause.
- `src/vatify/cli.py`: argument parsing, environment, printing and exit codes are I/O. Its call at line 37 also passes keyword arguments that `calculate` does not accept.
- `src/test_smoke.py`: it checks the live service, not client logic.
- `src/vatify/__init__.py`: re-exports only.
- ISO date validation of `supply_date`, upper-case or ISO-3166 checks on country codes, and retries: the code does none of them.
