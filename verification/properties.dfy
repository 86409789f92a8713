/** Properties that relate several calls, or a call and an independent
    statement of what it should do. */
module ClientProperties {
  import opened Wrappers
  import opened JsonValues
  import opened Models
  import opened Errors
  import opened Client

  // ---------- Connection lifecycle ----------

  /** A second `_ensure_client` changes nothing and hands out the same
      connection. */
  lemma EnsureClientIdempotent(s: Session)
    ensures EnsureClient(EnsureClient(s).session) == EnsureClient(s)
  {
  }

  /** Closing twice is closing once; the second close releases nothing. */
  lemma CloseIdempotent(s: Session)
    ensures Close(Close(s).session) == Closed(Close(s).session, None)
  {
  }

  /** A call after close gets a connection it never had before, configured
      with the same headers. */
  lemma FreshConnectionAfterClose(s: Session)
    requires Inv(s)
    ensures var before := EnsureClient(s);
            var after := EnsureClient(Close(before.session).session);
            after.conn.serial > before.conn.serial && Serves(after.conn, s)
  {
  }

  /** One step of a client's life: an operation (each starts with
      `_ensure_client`) or `close`/`aclose`. */
  datatype Step = Use | Release

  /** A session with every connection it created and released so far. */
  datatype Trace = Trace(session: Session, created: seq<Connection>, released: seq<Connection>)

  function Apply(t: Trace, step: Step): Trace {
    match step
    case Use =>
      var e := EnsureClient(t.session);
      Trace(e.session, t.created + (if t.session.client.None? then [e.conn] else []), t.released)
    case Release =>
      var c := Close(t.session);
      Trace(c.session, t.created, t.released + (if c.released.Some? then [c.released.value] else []))
  }

  /** The trace of a fresh client after `steps`. */
  function Run(variant: Variant, apiKey: string, baseUrl: string, timeout: real, steps: seq<Step>): Trace {
    if |steps| == 0 then Trace(NewSession(variant, apiKey, baseUrl, timeout), [], [])
    else Apply(Run(variant, apiKey, baseUrl, timeout, steps[..|steps| - 1]), steps[|steps| - 1])
  }

  /** Whatever a client does, it has created its connections one after the
      other with distinct serials, and all but the one it holds are released:
      at most one connection is live, and it is the latest. */
  lemma {:induction false} AtMostOneLiveConnection(variant: Variant, apiKey: string, baseUrl: string, timeout: real, steps: seq<Step>)
    ensures var t := Run(variant, apiKey, baseUrl, timeout, steps);
      && Inv(t.session)
      && |t.created| == t.session.created
      && (forall i :: 0 <= i < |t.created| ==> t.created[i].serial == i)
      && (t.session.client.None? ==> t.released == t.created)
      && (t.session.client.Some? ==>
            && |t.created| > 0
            && t.session.client.value == t.created[|t.created| - 1]
            && t.released == t.created[..|t.created| - 1])
  {
    if |steps| > 0 {
      var prefix := steps[..|steps| - 1];
      AtMostOneLiveConnection(variant, apiKey, baseUrl, timeout, prefix);
      var t := Run(variant, apiKey, baseUrl, timeout, prefix);
      var t' := Apply(t, steps[|steps| - 1]);
      assert t' == Run(variant, apiKey, baseUrl, timeout, steps);
      if steps[|steps| - 1] == Use && t.session.client.None? {
        assert t'.created[..|t'.created| - 1] == t.created;
      } else if steps[|steps| - 1] == Release && t.session.client.Some? {
        assert t.created == t.created[..|t.created| - 1] + [t.created[|t.created| - 1]];
      }
    }
  }

  // ---------- Error mapping ----------

  /** A failed HTTP status surfaces as a `VatifyError` with the operation's
      own message, that status and the raw body, for every operation, and
      never as a schema error: the raised `VatifyError` is not wrapped again
      by the `except httpx.HTTPError`. */
  lemma HttpFailureKeepsStatus(s: Session, vatNumber: string, args: CalculateArgs, countryCode: string, reply: Reply)
    requires reply.Response? && reply.status >= 400
    ensures var r := ValidateVat(s, vatNumber, reply).result;
            r == Failure(VatifyErr(VatifyError(ValidationFailed, Some(reply.status), Some(RawBody(s.variant, reply.content, reply.text)))))
    ensures var o := Calculate(s, args, reply);
            o.sent.Some? ==>
              o.result == Failure(VatifyErr(VatifyError(CalculationFailed, Some(reply.status), Some(RawBody(s.variant, reply.content, reply.text)))))
    ensures s.variant == Blocking ==>
            var r := SyncRates(s, countryCode, reply).result;
            r == Failure(VatifyErr(VatifyError(RatesFailed, Some(reply.status), Some(TextDetails(reply.text)))))
    ensures s.variant == NonBlocking ==>
            var r := AsyncRates(s, countryCode, reply).result;
            r == Failure(VatifyErr(VatifyError(RatesFailed, Some(reply.status), Some(ByteDetails(reply.content)))))
  {
  }

  /** The body of a failed response is never decoded: two failed responses
      that differ only in their JSON give the same result. */
  lemma HttpFailureIgnoresJson(s: Session, vatNumber: string, status: int, content: seq<byte>, text: string, j1: Option<Json>, j2: Option<Json>)
    requires status >= 400
    ensures ValidateVat(s, vatNumber, Response(status, content, text, j1)).result
         == ValidateVat(s, vatNumber, Response(status, content, text, j2)).result
  {
  }

  /** A transport failure surfaces as a `VatifyError` without a status or
      details, its message the description behind "Network error: ". */
  lemma TransportFailureHasNoStatus(s: Session, vatNumber: string, description: string)
    ensures var r := ValidateVat(s, vatNumber, TransportFailure(description)).result;
            r == Failure(VatifyErr(VatifyError(NetworkErrorPrefix + description, None, None)))
  {
  }

  // ---------- validate_vat ----------

  /** The service saying "not valid" is an ordinary result. */
  lemma InvalidNumberIsAResult(s: Session, vatNumber: string, status: int, content: seq<byte>, text: string)
    requires status < 400
    ensures var body := JObj(map["vat_number" := JStr(vatNumber), "valid" := JBool(false)]);
            ValidateVat(s, vatNumber, Response(status, content, text, Some(body))).result
              == Success(ValidationResult(vatNumber, false, None, None, None, map[]))
  {
  }

  /** Keys the model does not declare are ignored: adding one changes
      nothing. */
  lemma ValidationIgnoresExtraFields(f: Fields, key: string, extra: Json)
    requires key !in {"vat_number", "valid", "country_code", "name", "address", "meta"}
    ensures DecodeValidationResult(JObj(f[key := extra])) == DecodeValidationResult(JObj(f))
  {
    var g := f[key := extra];
    assert Str(g, "vat_number") == Str(f, "vat_number");
    assert Bool(g, "valid") == Bool(f, "valid");
    assert OptStr(g, "country_code") == OptStr(f, "country_code");
    assert OptStr(g, "name") == OptStr(f, "name");
    assert OptStr(g, "address") == OptStr(f, "address");
    assert Dict(g, "meta") == Dict(f, "meta");
  }

  // ---------- calculate ----------

  /** The request `calculate` would build from its arguments. */
  predicate ArgsAcceptable(a: CalculateArgs) {
    && a.amount > 0.0
    && a.basis in {"net", "gross"}
    && a.rateType in {"standard", "reduced", "super_reduced", "parking", "zero"}
    && |a.supplier.countryCode| == 2
    && |a.customer.countryCode| == 2
    && a.supplyType in {"goods", "services"}
    && a.b2x in {"B2C", "B2B"}
  }

  /** `calculate` sends a request exactly when its arguments satisfy the
      request model; what it sends decodes back to those arguments. */
  lemma CalculateSendsIff(s: Session, args: CalculateArgs, reply: Reply)
    ensures Calculate(s, args, reply).sent.Some? <==> ArgsAcceptable(args)
    ensures var o := Calculate(s, args, reply);
      o.sent.Some? ==>
        && o.sent.value.request.body.Some?
        && o.sent.value.request.body.value.JObj?
        && DecodeCalculationRequest(o.sent.value.request.body.value.fields)
             == Success(CalculationRequest(
                  args.amount, ParseBasis(args.basis).value, ParseRateType(args.rateType).value, args.supplyDate,
                  args.supplier, args.customer, ParseSupplyType(args.supplyType).value, ParseB2x(args.b2x).value,
                  args.categoryHint))
    ensures var o := Calculate(s, args, reply);
      o.sent.None? ==> o.result.Failure? && o.result.error.SchemaErr?
  {
    var f := RequestFields(args);
    if ArgsAcceptable(args) {
      var req := CalculationRequest(
        args.amount, ParseBasis(args.basis).value, ParseRateType(args.rateType).value, args.supplyDate,
        args.supplier, args.customer, ParseSupplyType(args.supplyType).value, ParseB2x(args.b2x).value,
        args.categoryHint);
      assert SpellsRequest(f, req);
      DecodeSpelledRequest(f, req);
      CalculationRequestRoundTrip(req);
    } else {
      AcceptedArgsAreAcceptable(args);
    }
  }

  /** Arguments the request model accepts meet every constraint of
      `ArgsAcceptable`. */
  lemma AcceptedArgsAreAcceptable(args: CalculateArgs)
    ensures RequestAccepts(RequestFields(args)) ==> ArgsAcceptable(args)
  {
    var f := RequestFields(args);
    if RequestAccepts(f) {
      assert f["supplier"] == SupplierJson(args.supplier);
      assert f["customer"] == SupplierJson(args.customer);
      assert f["basis"] == JStr(args.basis) && f["rate_type"] == JStr(args.rateType);
      assert f["supply_type"] == JStr(args.supplyType) && f["b2x"] == JStr(args.b2x);
    }
  }

  /** Omitted literal fields take their defaults; `category_hint` is none. */
  lemma RequestDefaults(amount: real, supplyDate: string, supplier: Supplier, customer: Supplier)
    requires amount > 0.0 && ValidSupplier(supplier) && ValidSupplier(customer)
    ensures DecodeCalculationRequest(map[
              "amount" := JNum(amount), "supply_date" := JStr(supplyDate),
              "supplier" := SupplierJson(supplier), "customer" := SupplierJson(customer)])
         == Success(CalculationRequest(amount, Net, Standard, supplyDate, supplier, customer, Goods, B2C, None))
  {
    SupplierRoundTrip(supplier);
    SupplierRoundTrip(customer);
  }

  /** A supplier is accepted exactly when its country code has two
      characters, with or without a VAT number. */
  lemma SupplierAcceptedIff(countryCode: string, vatNumber: Option<string>)
    ensures DecodeSupplier(SupplierJson(Supplier(countryCode, vatNumber)).fields).Success? <==> |countryCode| == 2
    ensures DecodeSupplier(map["country_code" := JStr(countryCode)]).Success? <==> |countryCode| == 2
  {
  }

  // ---------- rates ----------

  /** The blocking client's table comes from the body alone: the
      `country_code` argument never reaches the result. */
  lemma SyncRatesIgnoresCountryArgument(s: Session, c1: string, c2: string, reply: Reply)
    requires s.variant == Blocking
    ensures SyncRates(s, c1, reply).result == SyncRates(s, c2, reply).result
  {
    if reply.Response? && reply.status < 400 && reply.json.Some? {
      var data := reply.json.value;
      assert DecodeRatesTable(data, c1) == DecodeRatesTable(data, c2);
    }
  }

  /** Asking for the same rates twice against the same answer gives the same
      result; the second call reuses the first call's connection. */
  lemma SyncRatesRepeatable(s: Session, countryCode: string, reply: Reply)
    requires s.variant == Blocking
    ensures var first := SyncRates(s, countryCode, reply);
            var second := SyncRates(first.session, countryCode, reply);
            second.result == first.result && second.session == first.session
            && second.sent == first.sent
  {
  }

  /** The `{"rates": ...}` envelope is transparent to the blocking client. */
  lemma SyncRatesEnvelope(table: Json, countryCode: string)
    requires !(table.JObj? && "rates" in table.fields)
    ensures DecodeRatesTable(JObj(map["rates" := table]), countryCode) == DecodeRatesTable(table, countryCode)
  {
    EnvelopeIsTransparent(table, map[], countryCode);
  }

  /** The blocking client fails on a bare list and on a wrapped list. */
  lemma SyncRatesRejectsLists(items: seq<Json>, countryCode: string)
    ensures DecodeRatesTable(JArr(items), countryCode).Failure?
    ensures DecodeRatesTable(JObj(map["rates" := JArr(items)]), countryCode).Failure?
  {
  }

  /** The non-blocking client fails on a non-empty table that is not a list:
      iterating a mapping yields its keys, which are not rates. */
  lemma AsyncRatesRejectsTable(f: Fields)
    requires "rates" !in f && |f| > 0
    ensures DecodeRateList(JObj(f)).Failure?
  {
  }

  /** The non-blocking client keeps one rate per list element, in order, and
      the envelope is transparent to it too. */
  lemma AsyncRatesKeepOrder(items: seq<Json>)
    requires forall i :: 0 <= i < |items| ==> DecodeRate(items[i]).Success?
    ensures DecodeRateList(JArr(items)).Success?
    ensures DecodeRateList(JObj(map["rates" := JArr(items)])) == DecodeRateList(JArr(items))
    ensures var rs := DecodeRateList(JArr(items)).value;
            |rs| == |items| && forall i :: 0 <= i < |items| ==> Success(rs[i]) == DecodeRate(items[i])
  {
  }

  /** Two concrete rates bodies: a table inside the `{"rates": ...}`
      envelope, decoded by the blocking client, and a bare list, decoded by
      the non-blocking one. */
  lemma RatesShapes()
    ensures var reduced := JObj(map["rate" := JNum(7.0), "label" := JStr("reduced")]);
            var table := JObj(map["country" := JStr("DE"), "standard_rate" := JStr("19"), "reduced_rates" := JArr([reduced])]);
            DecodeRatesTable(JObj(map["rates" := table]), "DE")
              == Success(RatesTable("DE", JStr("19"), [Rate(7.0, "reduced")]))
    ensures var reduced := JObj(map["rate" := JNum(7.0), "label" := JStr("reduced")]);
            DecodeRateList(JArr([reduced])) == Success([Rate(7.0, "reduced")])
  {
    var reduced := JObj(map["rate" := JNum(7.0), "label" := JStr("reduced")]);
    var table := JObj(map["country" := JStr("DE"), "standard_rate" := JStr("19"), "reduced_rates" := JArr([reduced])]);
    assert DecodeRate(reduced) == Success(Rate(7.0, "reduced"));
    assert [reduced][0] == reduced;
    var rs := DecodeRateSeq([reduced]);
    assert rs.Success? && |rs.value| == 1 && DecodeRate(reduced) == Success(rs.value[0]);
    assert rs.value == [Rate(7.0, "reduced")];
    assert Unwrap(JObj(map["rates" := table])) == table;
    assert table.fields["country"] == JStr("DE");
  }
}
