/** The typed request and response models of the client and the schema checks
    that building them performs (`client.py`, section "Models"). Building a
    model from keyword arguments or from a decoded JSON object either yields
    the model or fails with a `SchemaError`; unknown keys are ignored. */
module Models {
  import opened Wrappers
  import opened JsonValues

  /** Why a model could not be built. These are the local failures of the
      client: pydantic validation errors, `KeyError`, `TypeError` from `**x`
      on a non-mapping, `AttributeError` from `.get` on a non-dict, and the
      JSON decoder's error. None of them is a `VatifyError`. */
  datatype SchemaError =
    | Missing(field: string)
    | WrongType(field: string)
    | OutOfRange(field: string)
    | NotAMapping
    | NotIterable
    | NoGetMethod
    | NotJson

  type Decoded<T> = Result<T, SchemaError>

  // ---------- Field readers ----------

  /** A required `str` field. */
  function Str(f: Fields, key: string): (r: Decoded<string>)
    ensures r.Success? <==> key in f && f[key].JStr?
    ensures r.Success? ==> r.value == f[key].s
  {
    if key !in f then Failure(Missing(key))
    else if f[key].JStr? then Success(f[key].s)
    else Failure(WrongType(key))
  }

  /** A required `float` field. */
  function Num(f: Fields, key: string): (r: Decoded<real>)
    ensures r.Success? <==> key in f && f[key].JNum?
    ensures r.Success? ==> r.value == f[key].n
  {
    if key !in f then Failure(Missing(key))
    else if f[key].JNum? then Success(f[key].n)
    else Failure(WrongType(key))
  }

  /** A required `bool` field. */
  function Bool(f: Fields, key: string): (r: Decoded<bool>)
    ensures r.Success? <==> key in f && f[key].JBool?
    ensures r.Success? ==> r.value == f[key].b
  {
    if key !in f then Failure(Missing(key))
    else if f[key].JBool? then Success(f[key].b)
    else Failure(WrongType(key))
  }

  /** An `Optional[str] = None` field accepts absence, null or a string. */
  predicate OptStrOk(f: Fields, key: string) {
    key !in f || f[key].JNull? || f[key].JStr?
  }

  /** An `Optional[str] = None` field. */
  function OptStr(f: Fields, key: string): (r: Decoded<Option<string>>)
    ensures r.Success? <==> OptStrOk(f, key)
    ensures r.Success? && key in f && f[key].JStr? ==> r.value == Some(f[key].s)
    ensures r.Success? && (key !in f || f[key].JNull?) ==> r.value == None
  {
    if key !in f || f[key].JNull? then Success(None)
    else if f[key].JStr? then Success(Some(f[key].s))
    else Failure(WrongType(key))
  }

  predicate AllStrings(xs: seq<Json>) {
    forall i :: 0 <= i < |xs| ==> xs[i].JStr?
  }

  /** A required `List[str]` field. */
  function StrList(f: Fields, key: string): (r: Decoded<seq<string>>)
    ensures r.Success? <==> key in f && f[key].JArr? && AllStrings(f[key].items)
    ensures r.Success? ==> |r.value| == |f[key].items|
    ensures r.Success? ==> forall i :: 0 <= i < |r.value| ==> JStr(r.value[i]) == f[key].items[i]
  {
    if key !in f then Failure(Missing(key))
    else if !f[key].JArr? || !AllStrings(f[key].items) then Failure(WrongType(key))
    else
      var xs := f[key].items;
      Success(seq(|xs|, i requires 0 <= i < |xs| => xs[i].s))
  }

  /** A `Dict[str, Any]` field with an empty-dict default. */
  function Dict(f: Fields, key: string): (r: Decoded<Fields>)
    ensures r.Success? <==> key !in f || f[key].JObj?
    ensures r.Success? && key !in f ==> r.value == map[]
    ensures r.Success? && key in f ==> r.value == f[key].fields
  {
    if key !in f then Success(map[])
    else if f[key].JObj? then Success(f[key].fields)
    else Failure(WrongType(key))
  }

  /** A `Literal[...]` field with a default: absent means the default, a
      present value must be one of the literal's strings. */
  function WithDefault<T>(f: Fields, key: string, parse: string -> Option<T>, default: T): (r: Decoded<T>)
    ensures key !in f ==> r == Success(default)
    ensures key in f ==> (r.Success? <==> f[key].JStr? && parse(f[key].s).Some?)
    ensures key in f && r.Success? ==> r.value == parse(f[key].s).value
  {
    if key !in f then Success(default)
    else if !f[key].JStr? then Failure(WrongType(key))
    else match parse(f[key].s)
      case Some(v) => Success(v)
      case None => Failure(OutOfRange(key))
  }

  /** The JSON form `model_dump` gives an optional string. */
  function OptJson(o: Option<string>): Json {
    match o
    case None => JNull
    case Some(s) => JStr(s)
  }

  // ---------- Closed enumerations ----------

  datatype Basis = Net | Gross
  datatype RateType = Standard | Reduced | SuperReduced | Parking | Zero
  datatype SupplyType = Goods | Services
  datatype B2x = B2C | B2B

  function BasisName(b: Basis): string {
    match b
    case Net => "net"
    case Gross => "gross"
  }

  function RateTypeName(t: RateType): string {
    match t
    case Standard => "standard"
    case Reduced => "reduced"
    case SuperReduced => "super_reduced"
    case Parking => "parking"
    case Zero => "zero"
  }

  function SupplyTypeName(t: SupplyType): string {
    match t
    case Goods => "goods"
    case Services => "services"
  }

  function B2xName(x: B2x): string {
    match x
    case B2C => "B2C"
    case B2B => "B2B"
  }

  function ParseBasis(s: string): (r: Option<Basis>)
    ensures r.Some? <==> s in {"net", "gross"}
    ensures r.Some? ==> BasisName(r.value) == s
  {
    if s == "net" then Some(Net)
    else if s == "gross" then Some(Gross)
    else None
  }

  function ParseRateType(s: string): (r: Option<RateType>)
    ensures r.Some? <==> s in {"standard", "reduced", "super_reduced", "parking", "zero"}
    ensures r.Some? ==> RateTypeName(r.value) == s
  {
    if s == "standard" then Some(Standard)
    else if s == "reduced" then Some(Reduced)
    else if s == "super_reduced" then Some(SuperReduced)
    else if s == "parking" then Some(Parking)
    else if s == "zero" then Some(Zero)
    else None
  }

  function ParseSupplyType(s: string): (r: Option<SupplyType>)
    ensures r.Some? <==> s in {"goods", "services"}
    ensures r.Some? ==> SupplyTypeName(r.value) == s
  {
    if s == "goods" then Some(Goods)
    else if s == "services" then Some(Services)
    else None
  }

  function ParseB2x(s: string): (r: Option<B2x>)
    ensures r.Some? <==> s in {"B2C", "B2B"}
    ensures r.Some? ==> B2xName(r.value) == s
  {
    if s == "B2C" then Some(B2C)
    else if s == "B2B" then Some(B2B)
    else None
  }

  /** Every enumeration value survives printing and parsing back. */
  lemma EnumNamesRoundTrip(b: Basis, t: RateType, st: SupplyType, x: B2x)
    ensures ParseBasis(BasisName(b)) == Some(b)
    ensures ParseRateType(RateTypeName(t)) == Some(t)
    ensures ParseSupplyType(SupplyTypeName(st)) == Some(st)
    ensures ParseB2x(B2xName(x)) == Some(x)
  {
  }

  // ---------- Supplier ----------

  /** A supplier or customer: a two-character country code and an optional
      VAT number. */
  datatype Supplier = Supplier(countryCode: string, vatNumber: Option<string>)

  predicate ValidSupplier(s: Supplier) {
    |s.countryCode| == 2
  }

  /** When `Supplier(**f)` is accepted: `country_code` a string of exactly
      two characters, `vat_number` absent, null or a string. */
  predicate SupplierAccepts(f: Fields) {
    && "country_code" in f && f["country_code"].JStr? && |f["country_code"].s| == 2
    && OptStrOk(f, "vat_number")
  }

  /** `Supplier(**f)`. */
  function DecodeSupplier(f: Fields): (r: Decoded<Supplier>)
    ensures r.Success? <==> SupplierAccepts(f)
    ensures r.Success? ==> ValidSupplier(r.value) && r.value.countryCode == f["country_code"].s
    ensures r.Success? ==> r.value.vatNumber == (if "vat_number" in f then OptionOf(f["vat_number"]) else None)
    ensures r.Failure? && "country_code" in f && f["country_code"].JStr? && |f["country_code"].s| != 2
            ==> r.error == OutOfRange("country_code")
  {
    var code :- Str(f, "country_code");
    if |code| != 2 then Failure(OutOfRange("country_code"))
    else
      var vat :- OptStr(f, "vat_number");
      Success(Supplier(code, vat))
  }

  /** The string a null-or-string JSON value stands for. */
  function OptionOf(j: Json): Option<string> {
    if j.JStr? then Some(j.s) else None
  }

  /** `Supplier.model_dump()`. */
  function SupplierJson(s: Supplier): Json {
    JObj(map["country_code" := JStr(s.countryCode), "vat_number" := OptJson(s.vatNumber)])
  }

  lemma SupplierRoundTrip(s: Supplier)
    requires ValidSupplier(s)
    ensures SupplierJson(s).JObj?
    ensures DecodeSupplier(SupplierJson(s).fields) == Success(s)
  {
  }

  /** A nested `Supplier` field of a model. */
  function SupplierField(f: Fields, key: string): (r: Decoded<Supplier>)
    ensures r.Success? <==> key in f && f[key].JObj? && SupplierAccepts(f[key].fields)
    ensures r.Success? ==> r == DecodeSupplier(f[key].fields)
  {
    if key !in f then Failure(Missing(key))
    else if !f[key].JObj? then Failure(WrongType(key))
    else DecodeSupplier(f[key].fields)
  }

  // ---------- CalculationRequest ----------

  datatype CalculationRequest = CalculationRequest(
    amount: real,
    basis: Basis,
    rateType: RateType,
    supplyDate: string,
    supplier: Supplier,
    customer: Supplier,
    supplyType: SupplyType,
    b2x: B2x,
    categoryHint: Option<string>)

  predicate ValidRequest(r: CalculationRequest) {
    r.amount > 0.0 && ValidSupplier(r.supplier) && ValidSupplier(r.customer)
  }

  /** A defaulted literal field is absent or one of the given names. */
  predicate NamedIn(f: Fields, key: string, names: set<string>) {
    key !in f || (f[key].JStr? && f[key].s in names)
  }

  /** When `CalculationRequest(**f)` is accepted, stated field by field from
      the declared constraints. */
  predicate RequestAccepts(f: Fields) {
    && "amount" in f && f["amount"].JNum? && f["amount"].n > 0.0
    && NamedIn(f, "basis", {"net", "gross"})
    && NamedIn(f, "rate_type", {"standard", "reduced", "super_reduced", "parking", "zero"})
    && "supply_date" in f && f["supply_date"].JStr?
    && "supplier" in f && f["supplier"].JObj? && SupplierAccepts(f["supplier"].fields)
    && "customer" in f && f["customer"].JObj? && SupplierAccepts(f["customer"].fields)
    && NamedIn(f, "supply_type", {"goods", "services"})
    && NamedIn(f, "b2x", {"B2C", "B2B"})
    && OptStrOk(f, "category_hint")
  }

  /** `CalculationRequest(**f)`: the checks run in declaration order and the
      first failing field is reported. */
  function DecodeCalculationRequest(f: Fields): (r: Decoded<CalculationRequest>)
    ensures r.Success? <==> RequestAccepts(f)
    ensures r.Success? ==> ValidRequest(r.value)
    ensures r.Success? ==> r.value.amount == f["amount"].n && r.value.supplyDate == f["supply_date"].s
    ensures r.Success? ==> r.value.supplier.countryCode == f["supplier"].fields["country_code"].s
    ensures r.Success? ==> r.value.customer.countryCode == f["customer"].fields["country_code"].s
    ensures r.Success? ==> if "basis" in f then BasisName(r.value.basis) == f["basis"].s else r.value.basis == Net
    ensures r.Success? ==> if "rate_type" in f then RateTypeName(r.value.rateType) == f["rate_type"].s else r.value.rateType == Standard
    ensures r.Success? ==> if "supply_type" in f then SupplyTypeName(r.value.supplyType) == f["supply_type"].s else r.value.supplyType == Goods
    ensures r.Success? ==> if "b2x" in f then B2xName(r.value.b2x) == f["b2x"].s else r.value.b2x == B2C
    ensures r.Success? ==> r.value.supplier == DecodeSupplier(f["supplier"].fields).value
    ensures r.Success? ==> r.value.customer == DecodeSupplier(f["customer"].fields).value
    ensures r.Success? ==> r.value.categoryHint == (if "category_hint" in f then OptionOf(f["category_hint"]) else None)
    ensures "amount" in f && f["amount"].JNum? && f["amount"].n <= 0.0 ==> r == Failure(OutOfRange("amount"))
  {
    var amount :- Num(f, "amount");
    if amount <= 0.0 then Failure(OutOfRange("amount"))
    else
      var basis :- WithDefault(f, "basis", ParseBasis, Net);
      var rateType :- WithDefault(f, "rate_type", ParseRateType, Standard);
      var supplyDate :- Str(f, "supply_date");
      var supplier :- SupplierField(f, "supplier");
      var customer :- SupplierField(f, "customer");
      var supplyType :- WithDefault(f, "supply_type", ParseSupplyType, Goods);
      var b2x :- WithDefault(f, "b2x", ParseB2x, B2C);
      var hint :- OptStr(f, "category_hint");
      Success(CalculationRequest(amount, basis, rateType, supplyDate, supplier, customer, supplyType, b2x, hint))
  }

  /** `CalculationRequest.model_dump()`: every field, optional ones as null. */
  function CalculationRequestJson(r: CalculationRequest): Json {
    JObj(map[
      "amount" := JNum(r.amount),
      "basis" := JStr(BasisName(r.basis)),
      "rate_type" := JStr(RateTypeName(r.rateType)),
      "supply_date" := JStr(r.supplyDate),
      "supplier" := SupplierJson(r.supplier),
      "customer" := SupplierJson(r.customer),
      "supply_type" := JStr(SupplyTypeName(r.supplyType)),
      "b2x" := JStr(B2xName(r.b2x)),
      "category_hint" := OptJson(r.categoryHint)])
  }

  /** The fields of `f` spell out request `r` the way `model_dump` writes it. */
  predicate SpellsRequest(f: Fields, r: CalculationRequest) {
    && "amount" in f && f["amount"] == JNum(r.amount)
    && "basis" in f && f["basis"] == JStr(BasisName(r.basis))
    && "rate_type" in f && f["rate_type"] == JStr(RateTypeName(r.rateType))
    && "supply_date" in f && f["supply_date"] == JStr(r.supplyDate)
    && "supplier" in f && f["supplier"] == SupplierJson(r.supplier)
    && "customer" in f && f["customer"] == SupplierJson(r.customer)
    && "supply_type" in f && f["supply_type"] == JStr(SupplyTypeName(r.supplyType))
    && "b2x" in f && f["b2x"] == JStr(B2xName(r.b2x))
    && "category_hint" in f && f["category_hint"] == OptJson(r.categoryHint)
  }

  /** Any keyword arguments that spell out a valid request build exactly that
      request. */
  lemma DecodeSpelledRequest(f: Fields, r: CalculationRequest)
    requires ValidRequest(r) && SpellsRequest(f, r)
    ensures DecodeCalculationRequest(f) == Success(r)
  {
    SupplierRoundTrip(r.supplier);
    SupplierRoundTrip(r.customer);
    EnumNamesRoundTrip(r.basis, r.rateType, r.supplyType, r.b2x);
    assert SupplierField(f, "supplier") == Success(r.supplier);
    assert SupplierField(f, "customer") == Success(r.customer);
  }

  /** Dumping a valid request and building a request from the dump gives the
      same request back: the payload the client sends carries every field. */
  lemma CalculationRequestRoundTrip(r: CalculationRequest)
    requires ValidRequest(r)
    ensures CalculationRequestJson(r).JObj?
    ensures DecodeCalculationRequest(CalculationRequestJson(r).fields) == Success(r)
  {
    assert SpellsRequest(CalculationRequestJson(r).fields, r);
    DecodeSpelledRequest(CalculationRequestJson(r).fields, r);
  }

  // ---------- Response models ----------

  /** The answer to a VAT-number check. `valid == false` is an ordinary
      answer, not a failure. `meta` holds the service's extra data. */
  datatype ValidationResult = ValidationResult(
    vatNumber: string,
    valid: bool,
    countryCode: Option<string>,
    name: Option<string>,
    address: Option<string>,
    meta: Fields)

  /** When `ValidationResult(**body)` is accepted. */
  predicate ValidationAccepts(body: Json) {
    && body.JObj?
    && "vat_number" in body.fields && body.fields["vat_number"].JStr?
    && "valid" in body.fields && body.fields["valid"].JBool?
    && OptStrOk(body.fields, "country_code")
    && OptStrOk(body.fields, "name")
    && OptStrOk(body.fields, "address")
    && ("meta" !in body.fields || body.fields["meta"].JObj?)
  }

  /** `ValidationResult(**body)`. */
  function DecodeValidationResult(body: Json): (r: Decoded<ValidationResult>)
    ensures r.Success? <==> ValidationAccepts(body)
    ensures !body.JObj? ==> r == Failure(NotAMapping)
    ensures r.Success? ==> r.value.vatNumber == body.fields["vat_number"].s
    ensures r.Success? ==> r.value.valid == body.fields["valid"].b
    ensures r.Success? ==> r.value.countryCode == (if "country_code" in body.fields then OptionOf(body.fields["country_code"]) else None)
    ensures r.Success? ==> r.value.name == (if "name" in body.fields then OptionOf(body.fields["name"]) else None)
    ensures r.Success? ==> r.value.address == (if "address" in body.fields then OptionOf(body.fields["address"]) else None)
    ensures r.Success? ==> r.value.meta == (if "meta" in body.fields then body.fields["meta"].fields else map[])
  {
    if !body.JObj? then Failure(NotAMapping)
    else
      var f := body.fields;
      var vatNumber :- Str(f, "vat_number");
      var valid :- Bool(f, "valid");
      var countryCode :- OptStr(f, "country_code");
      var name :- OptStr(f, "name");
      var address :- OptStr(f, "address");
      var meta :- Dict(f, "meta");
      Success(ValidationResult(vatNumber, valid, countryCode, name, address, meta))
  }

  /** The result of a VAT calculation. */
  datatype CalculationResult = CalculationResult(
    countryCode: string,
    appliedRate: real,
    net: real,
    vat: real,
    gross: real,
    mechanism: Option<string>,
    messages: seq<string>,
    vatCheckStatus: string)

  /** When `CalculationResult(**body)` is accepted. */
  predicate CalculationAccepts(body: Json) {
    && body.JObj?
    && "country_code" in body.fields && body.fields["country_code"].JStr?
    && "applied_rate" in body.fields && body.fields["applied_rate"].JNum?
    && "net" in body.fields && body.fields["net"].JNum?
    && "vat" in body.fields && body.fields["vat"].JNum?
    && "gross" in body.fields && body.fields["gross"].JNum?
    && OptStrOk(body.fields, "mechanism")
    && "messages" in body.fields && body.fields["messages"].JArr? && AllStrings(body.fields["messages"].items)
    && "vat_check_status" in body.fields && body.fields["vat_check_status"].JStr?
  }

  /** `CalculationResult(**body)`. */
  function DecodeCalculationResult(body: Json): (r: Decoded<CalculationResult>)
    ensures r.Success? <==> CalculationAccepts(body)
    ensures r.Success? ==> r.value.countryCode == body.fields["country_code"].s
    ensures r.Success? ==> r.value.appliedRate == body.fields["applied_rate"].n
    ensures r.Success? ==> r.value.net == body.fields["net"].n && r.value.vat == body.fields["vat"].n
                           && r.value.gross == body.fields["gross"].n
    ensures r.Success? ==> r.value.mechanism == (if "mechanism" in body.fields then OptionOf(body.fields["mechanism"]) else None)
    ensures r.Success? ==> |r.value.messages| == |body.fields["messages"].items|
    ensures r.Success? ==> forall i :: 0 <= i < |r.value.messages| ==> JStr(r.value.messages[i]) == body.fields["messages"].items[i]
    ensures r.Success? ==> r.value.vatCheckStatus == body.fields["vat_check_status"].s
  {
    if !body.JObj? then Failure(NotAMapping)
    else
      var f := body.fields;
      var countryCode :- Str(f, "country_code");
      var appliedRate :- Num(f, "applied_rate");
      var net :- Num(f, "net");
      var vat :- Num(f, "vat");
      var gross :- Num(f, "gross");
      var mechanism :- OptStr(f, "mechanism");
      var messages :- StrList(f, "messages");
      var vatCheckStatus :- Str(f, "vat_check_status");
      Success(CalculationResult(countryCode, appliedRate, net, vat, gross, mechanism, messages, vatCheckStatus))
  }

  /** The JSON object a service would send for result `c`. */
  function CalculationResultJson(c: CalculationResult): Json {
    JObj(map[
      "country_code" := JStr(c.countryCode),
      "applied_rate" := JNum(c.appliedRate),
      "net" := JNum(c.net),
      "vat" := JNum(c.vat),
      "gross" := JNum(c.gross),
      "mechanism" := OptJson(c.mechanism),
      "messages" := JArr(seq(|c.messages|, i requires 0 <= i < |c.messages| => JStr(c.messages[i]))),
      "vat_check_status" := JStr(c.vatCheckStatus)])
  }

  /** Every calculation result survives being sent as JSON and decoded. */
  lemma CalculationResultRoundTrip(c: CalculationResult)
    ensures DecodeCalculationResult(CalculationResultJson(c)) == Success(c)
  {
    var body := CalculationResultJson(c);
    var r := DecodeCalculationResult(body);
    assert CalculationAccepts(body);
    assert r.value.messages == c.messages;
  }

  /** One rate entry: a percentage and its label. */
  datatype Rate = Rate(rate: real, caption: string)

  /** `Rate(**item)`. */
  function DecodeRate(item: Json): (r: Decoded<Rate>)
    ensures r.Success? <==> item.JObj? && "rate" in item.fields && item.fields["rate"].JNum?
                            && "label" in item.fields && item.fields["label"].JStr?
    ensures r.Success? ==> r.value == Rate(item.fields["rate"].n, item.fields["label"].s)
  {
    if !item.JObj? then Failure(NotAMapping)
    else
      var rate :- Num(item.fields, "rate");
      var caption :- Str(item.fields, "label");
      Success(Rate(rate, caption))
  }

  /** `[Rate(**r) for r in items]` over a list: one rate per element, in
      order, failing at the first element that is not a rate. */
  function DecodeRateSeq(items: seq<Json>): (r: Decoded<seq<Rate>>)
    ensures r.Success? <==> forall i :: 0 <= i < |items| ==> DecodeRate(items[i]).Success?
    ensures r.Success? ==> |r.value| == |items|
    ensures r.Success? ==> forall i :: 0 <= i < |items| ==> DecodeRate(items[i]) == Success(r.value[i])
  {
    if |items| == 0 then Success([])
    else
      var first :- DecodeRate(items[0]);
      var rest :- DecodeRateSeq(items[1..]);
      assert forall i :: 1 <= i < |items| ==> items[i] == items[1..][i - 1];
      Success([first] + rest)
  }

  /** `[Rate(**r) for r in x]` for any JSON value `x`: a list decodes element
      by element; iterating a dict yields its keys and a string its
      characters, so an empty one gives no rates and a non-empty one fails on
      `**` of a string; anything else is not iterable. */
  function DecodeRateIterable(x: Json): (r: Decoded<seq<Rate>>)
    ensures x.JArr? ==> r == DecodeRateSeq(x.items)
    ensures r.Success? ==> x.JArr? || x == JObj(map[]) || x == JStr("")
    ensures (x == JObj(map[]) || x == JStr("")) ==> r == Success([])
  {
    match x
    case JArr(items) => DecodeRateSeq(items)
    case JObj(f) => if |f| == 0 then Success([]) else Failure(NotAMapping)
    case JStr(s) => if |s| == 0 then Success([]) else Failure(NotAMapping)
    case _ => Failure(NotIterable)
  }

  /** Envelope detection: a mapping root holding `"rates"` is unwrapped,
      anything else is used as it is. */
  function Unwrap(data: Json): Json {
    if data.JObj? && "rates" in data.fields then data.fields["rates"] else data
  }

  /** The blocking client's rates table. `standardRate` is whatever JSON the
      body holds: the field is assigned after construction and pydantic does
      not validate assignments. */
  datatype RatesTable = RatesTable(country: string, standardRate: Json, reducedRates: seq<Rate>)

  /** The blocking client's decoding of a rates body. `countryCode` only
      feeds the default of `items.get("country", ...)`, which is overwritten
      by `items["country"]` right after. */
  function DecodeRatesTable(data: Json, countryCode: string): (r: Decoded<RatesTable>)
    ensures var items := Unwrap(data);
      r.Success? <==>
        && items.JObj?
        && "country" in items.fields && items.fields["country"].JStr?
        && "standard_rate" in items.fields
        && "reduced_rates" in items.fields
        && DecodeRateIterable(items.fields["reduced_rates"]).Success?
    ensures var items := Unwrap(data);
      r.Success? ==>
        && r.value.country == items.fields["country"].s
        && r.value.standardRate == items.fields["standard_rate"]
        && Success(r.value.reducedRates) == DecodeRateIterable(items.fields["reduced_rates"])
    ensures Unwrap(data).JArr? ==> r == Failure(NoGetMethod)
  {
    var items := Unwrap(data);
    if !items.JObj? then Failure(NoGetMethod)
    else
      var f := items.fields;
      var initial := if "country" in f then f["country"] else JStr(countryCode);
      if !initial.JStr? then Failure(WrongType("country"))
      else if "country" !in f then Failure(Missing("country"))
      else if "standard_rate" !in f then Failure(Missing("standard_rate"))
      else if "reduced_rates" !in f then Failure(Missing("reduced_rates"))
      else
        var reduced :- DecodeRateIterable(f["reduced_rates"]);
        Success(RatesTable(f["country"].s, f["standard_rate"], reduced))
  }

  /** The non-blocking client's decoding of a rates body: one `Rate` per
      element of the (unwrapped) list. */
  function DecodeRateList(data: Json): (r: Decoded<seq<Rate>>)
    ensures Unwrap(data).JArr? ==> r == DecodeRateSeq(Unwrap(data).items)
    ensures r.Success? ==> Unwrap(data).JArr? || Unwrap(data) == JObj(map[]) || Unwrap(data) == JStr("")
  {
    DecodeRateIterable(Unwrap(data))
  }

  /** The `{"rates": ...}` envelope, whatever other keys it carries, is
      transparent to both clients' decoding: it is removed exactly once, so
      a body that is not itself an envelope decodes the same bare or
      wrapped. */
  lemma EnvelopeIsTransparent(x: Json, others: Fields, countryCode: string)
    requires !(x.JObj? && "rates" in x.fields)
    ensures DecodeRatesTable(JObj(others["rates" := x]), countryCode) == DecodeRatesTable(x, countryCode)
    ensures DecodeRateList(JObj(others["rates" := x])) == DecodeRateList(x)
  {
  }
}
