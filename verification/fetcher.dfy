/** The data-access facade (MCPDataFetcher): one fail-soft getter per MCP
    tool, the static reference-data table and the generic missing-field
    fetch. No getter raises; failures become error markers in the result. */
module Fetcher {
  import opened Values
  import opened Text
  import opened Oracles

  /** A fetcher instance: its client, `str()` for error messages, and whether
      mock mode is enabled. */
  datatype DataFetcher = DataFetcher(client: Client, render: Value -> string, mock: bool)

  function MockRatedData(trackingNumber: Value): Object {
    map[
      "id" := Int(12345),
      "tracking_number" := trackingNumber,
      "category" := Str("BILL_WEIGHT_AUDIT"),
      "carrier_bill_weight" := Float(15.0),
      "calc_bill_weight" := Float(10.0),
      "actual_weight" := Float(10.0),
      "carrier_total_net_charge" := Float(25.82),
      "calc_total_net_charge" := Float(21.53),
      "over_rated" := Int(1),
      "message" := Str("Weight discrepancy detected")]
  }

  function MockParcelCharacteristics(trackingNumber: Value): Object {
    map[
      "id" := Int(12345),
      "tracking_number" := trackingNumber,
      "actual_weight" := Float(10.0),
      "length" := Float(12.0),
      "width" := Float(10.0),
      "height" := Float(8.0),
      "sender_postal" := Str("90210"),
      "receiver_postal" := Str("10001"),
      "status" := Str("SUCCESS")]
  }

  function MockAgreements(clientId: Value, carrierId: Value): Object {
    map[
      "client_id" := clientId,
      "carrier_id" := carrierId,
      "dim_divisor" := Int(139),
      "base_discount_percent" := Float(45.0)]
  }

  function MockFullAnalysis(trackingNumber: Value): Object {
    map[
      "invoiceDetails" := List([Dict(map["tracking_number" := trackingNumber, "total_charges" := Float(25.82)])]),
      "upsTrackingDetails" := List([Dict(map["tracking_number" := trackingNumber])]),
      "upsTrackingDetailsDump" := List([])]
  }

  /** The error marker for a reply that is not a dictionary. */
  function InvalidFormat(render: Value -> string, v: Value): Object {
    map["error" := Str("Invalid data format: " + PyStr(render, v)), "raw_response" := Str(PyStr(render, v))]
  }

  /** A dictionary-shaped tool reply: dictionaries pass through unchanged,
      anything else is wrapped as an invalid-format error. */
  function DictReply(render: Value -> string, v: Value): (r: Value)
    ensures r.Dict?
    ensures v.Dict? ==> r == v
    ensures !v.Dict? ==> r.entries.Keys == {"error", "raw_response"}
  {
    if v.Dict? then v else Dict(InvalidFormat(render, v))
  }

  /** `get_rated_data`: never raises and always yields a dictionary. */
  function GetRatedData(f: DataFetcher, trackingNumber: Value): (r: Value)
    ensures r.Dict?
    ensures f.mock ==> r == Dict(MockRatedData(trackingNumber))
    ensures !f.mock ==>
      var reply := f.client("get_rated_data", map["trackingNumber" := trackingNumber]);
      && (reply.Returned? ==> r == DictReply(f.render, reply.value))
      && (reply.Threw? ==> r == Dict(map["error" := Str(reply.message), "exception_type" := Str(reply.kind)]))
  {
    if f.mock then Dict(MockRatedData(trackingNumber))
    else
      match f.client("get_rated_data", map["trackingNumber" := trackingNumber])
      case Returned(v) => DictReply(f.render, v)
      case Threw(kind, message) => Dict(map["error" := Str(message), "exception_type" := Str(kind)])
  }

  /** `get_parcel_characteristics`: never raises and always yields a dictionary. */
  function GetParcelCharacteristics(f: DataFetcher, trackingNumber: Value): (r: Value)
    ensures r.Dict?
    ensures f.mock ==> r == Dict(MockParcelCharacteristics(trackingNumber))
    ensures !f.mock ==>
      var reply := f.client("get_parcel_characteristic", map["trackingNumber" := trackingNumber]);
      && (reply.Returned? ==> r == DictReply(f.render, reply.value))
      && (reply.Threw? ==> r == Dict(map["error" := Str(reply.message)]))
  {
    if f.mock then Dict(MockParcelCharacteristics(trackingNumber))
    else
      match f.client("get_parcel_characteristic", map["trackingNumber" := trackingNumber])
      case Returned(v) => DictReply(f.render, v)
      case Threw(_, message) => Dict(map["error" := Str(message)])
  }

  /** `get_agreements`: never raises and always yields a dictionary. */
  function GetAgreements(f: DataFetcher, clientId: Value, carrierId: Value): (r: Value)
    ensures r.Dict?
    ensures f.mock ==> r == Dict(MockAgreements(clientId, carrierId))
    ensures !f.mock ==>
      var reply := f.client("get_agreement_details_json", map["clientId" := clientId, "carrierId" := carrierId]);
      && (reply.Returned? ==> r == DictReply(f.render, reply.value))
      && (reply.Threw? ==> r == Dict(map["error" := Str(reply.message)]))
  {
    if f.mock then Dict(MockAgreements(clientId, carrierId))
    else
      match f.client("get_agreement_details_json", map["clientId" := clientId, "carrierId" := carrierId])
      case Returned(v) => DictReply(f.render, v)
      case Threw(_, message) => Dict(map["error" := Str(message)])
  }

  /** `result if result else default` for a tool reply; an exception gives
      `onError`. */
  function OrDefault(reply: Attempt<Value>, default: Value, onError: Value): Value {
    match reply
    case Returned(v) => Or(v, default)
    case Threw(_, message) => onError
  }

  /** A list-valued tool call: `[]` in mock mode, on an empty reply and on
      an exception, and otherwise the reply. */
  function ListTool(f: DataFetcher, tool: string, args: Object): (r: Value)
    ensures r == List([]) || (!f.mock && f.client(tool, args) == Returned(r) && Truthy(r))
    ensures !f.mock && f.client(tool, args).Returned? && Truthy(f.client(tool, args).value) ==>
      r == f.client(tool, args).value
  {
    if f.mock then List([])
    else OrDefault(f.client(tool, args), List([]), List([]))
  }

  /** `get_rated_data_additional_services`. */
  function GetAdditionalServices(f: DataFetcher, ratedDataId: Value): Value {
    ListTool(f, "get_rated_data_additional_services", map["ratedDataId" := ratedDataId])
  }

  /** `get_full_tracking_analysis`: `{}` on an empty reply, `{error}` on an
      exception. */
  function GetFullTrackingAnalysis(f: DataFetcher, trackingNumber: Value): (r: Value)
    ensures f.mock ==> r == Dict(MockFullAnalysis(trackingNumber))
    ensures !f.mock ==>
      var reply := f.client("get_full_tracking_analysis", map["trackingNumber" := trackingNumber]);
      && (reply.Threw? ==> r == Dict(map["error" := Str(reply.message)]))
      && (reply.Returned? && !Truthy(reply.value) ==> r == Dict(map[]))
      && (reply.Returned? && Truthy(reply.value) ==> r == reply.value)
  {
    if f.mock then Dict(MockFullAnalysis(trackingNumber))
    else
      var reply := f.client("get_full_tracking_analysis", map["trackingNumber" := trackingNumber]);
      OrDefault(reply, Dict(map[]), if reply.Threw? then Dict(map["error" := Str(reply.message)]) else Null)
  }

  /** `get_default_dim_divisors`. */
  function GetDefaultDimDivisors(f: DataFetcher, shipDate: Value): Value {
    ListTool(f, "get_default_dim_divisors", map["shipDate" := shipDate])
  }

  /** In mock mode no getter consults the client. */
  lemma MockModeIgnoresClient(f: DataFetcher, c: Client, a: Value, b: Value)
    requires f.mock
    ensures var g := f.(client := c);
      && GetRatedData(f, a) == GetRatedData(g, a)
      && GetParcelCharacteristics(f, a) == GetParcelCharacteristics(g, a)
      && GetAgreements(f, a, b) == GetAgreements(g, a, b)
      && GetAdditionalServices(f, a) == GetAdditionalServices(g, a)
      && GetFullTrackingAnalysis(f, a) == GetFullTrackingAnalysis(g, a)
      && GetDefaultDimDivisors(f, a) == GetDefaultDimDivisors(g, a)
  {
  }

  const BillWeightReference: Object :=
    map["dim_divisor_standard" := Int(139), "weight_rounding_rule" := Str("UP_TO_NEXT_POUND"),
        "minimum_billable_weight" := Float(1.0)]

  const ListRateReference: Object :=
    map["rate_type" := Str("LIST"), "rate_source" := Str("CARRIER_TARIFF")]

  const SurchargeReference: Object :=
    map["surcharge_types" := StrList(["FUEL", "RESIDENTIAL", "DELIVERY_AREA", "EXTENDED_AREA"])]

  const DiscountReference: Object :=
    map["discount_types" := StrList(["BASE", "EARNED", "OTHER"])]

  const ListRateTypes: set<string> := {"LIST_RATE_AUDIT", "LIST_RATE_NULL_AUDIT", "MWT_LIST_RATE_AUDIT"}
  const SurchargeTypes: set<string> := {"SURCHARGE_AUDIT", "SURCHARGE_APPLICABILITY_AUDIT", "FUEL_SURCHARGE_AUDIT"}
  const DiscountTypes: set<string> :=
    {"BASE_DISCOUNTS_PERCENTAGE_AUDIT", "DISCOUNTS_PERCENTAGE_AUDIT", "EARNED_DISCOUNTS_PERCENTAGE_AUDIT"}

  /** `get_reference_data`: a fixed table keyed by audit type. */
  function GetReferenceData(auditType: Value): Object
  {
    if !auditType.Str? then map[]
    else if auditType.s == "BILL_WEIGHT_AUDIT" then BillWeightReference
    else if auditType.s in ListRateTypes then ListRateReference
    else if auditType.s in SurchargeTypes then SurchargeReference
    else if auditType.s in DiscountTypes then DiscountReference
    else map[]
  }

  /** The reference table: each listed audit type gets its entry; every
      other value, including SURCHARGE_NULL_AUDIT, gets `{}`. */
  lemma ReferenceDataTable(auditType: Value)
    ensures var r := GetReferenceData(auditType);
      && (auditType == Str("BILL_WEIGHT_AUDIT") ==> r == BillWeightReference)
      && (auditType.Str? && auditType.s in ListRateTypes ==> r == ListRateReference)
      && (auditType.Str? && auditType.s in SurchargeTypes ==> r == SurchargeReference)
      && (auditType.Str? && auditType.s in DiscountTypes ==> r == DiscountReference)
      && (r != map[] <==>
            auditType.Str? &&
            (auditType.s == "BILL_WEIGHT_AUDIT" || auditType.s in ListRateTypes + SurchargeTypes + DiscountTypes))
  {
    assert "dim_divisor_standard" in BillWeightReference;
    assert "rate_type" in ListRateReference;
    assert "surcharge_types" in SurchargeReference;
    assert "discount_types" in DiscountReference;
  }

  /** Python's `x in c` for a string `x` and a container `c`: element
      equality in a list, substring in a string, key membership in a dict. */
  predicate In(x: string, c: Value)
    requires HasLen(c)
  {
    if c.Str? then Contains(c.s, x)
    else if c.List? then Str(x) in c.items
    else x in c.entries
  }

  /** Missing-field names that call for the full tracking analysis. */
  predicate WantsTrackingAnalysis(missing: Value)
    requires HasLen(missing)
  {
    In("invoice_details", missing) || In("tracking_details", missing) || In("upsTrackingDetails", missing)
  }

  /** `fetch_missing_data`: at most two keys, each present exactly when its
      trigger field is listed and the context supplies the identifier. */
  function FetchMissingData(f: DataFetcher, missing: Value, context: Object): (r: Object)
    requires HasLen(missing)
    ensures r.Keys <= {"full_tracking_analysis", "additional_services"}
    ensures "full_tracking_analysis" in r <==>
      WantsTrackingAnalysis(missing) && Truthy(GetOr(context, "tracking_number", Str("")))
    ensures "full_tracking_analysis" in r ==>
      r["full_tracking_analysis"] == GetFullTrackingAnalysis(f, GetOr(context, "tracking_number", Str("")))
    ensures "additional_services" in r <==>
      In("additional_services", missing) && Truthy(Get(context, "rated_data_id"))
  {
    var trackingNumber := GetOr(context, "tracking_number", Str(""));
    var analysis: Object :=
      if WantsTrackingAnalysis(missing) && Truthy(trackingNumber)
      then map["full_tracking_analysis" := GetFullTrackingAnalysis(f, trackingNumber)]
      else map[];
    var ratedDataId := Get(context, "rated_data_id");
    if In("additional_services", missing) && Truthy(ratedDataId)
    then analysis["additional_services" := GetAdditionalServices(f, Str(PyStr(f.render, ratedDataId)))]
    else analysis
  }
}
