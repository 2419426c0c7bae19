/** The data enrichment agent (DataEnrichmentAgent): when reasoning found
    required fields missing, it works out which data sources those fields
    live in, fetches what it can, merges the result into `enriched_data`
    and counts one more enrichment iteration. */
module Enrichment {
  import opened Values
  import opened Oracles
  import opened Fetcher
  import opened Reasoning

  /** `FIELD_TO_SOURCE`: the data source each known field is fetched from. */
  const FieldToSource: map<string, string> := map[
    "actual_weight" := "parcel_characteristics",
    "carrier_bill_weight" := "rated_data",
    "calc_bill_weight" := "rated_data",
    "carrier_dim_divisor" := "rated_data",
    "calc_dim_divisor" := "rated_data",
    "length" := "parcel_characteristics",
    "width" := "parcel_characteristics",
    "height" := "parcel_characteristics",
    "carrier_zone" := "rated_data",
    "calc_zone" := "rated_data",
    "sender_postal" := "parcel_characteristics",
    "receiver_postal" := "parcel_characteristics",
    "zone_chart" := "reference_data",
    "carrier_original_service" := "rated_data",
    "calc_original_service" := "rated_data",
    "carrier_total_discount_percentage" := "rated_data",
    "calc_total_discount_percentage" := "rated_data",
    "base_discount_percentage" := "agreements",
    "carrier_total_surcharges" := "rated_data",
    "calc_total_surcharges" := "rated_data",
    "fuel_percentage" := "rated_data",
    "invoice_details" := "invoice_details",
    "tracking_details" := "tracking_number_details"]

  /** The source assumed for a field the table does not know. */
  const FallbackSource: string := "invoice_details"

  /** The six distinct sources the table names. */
  const DataSources: set<string> := {
    "parcel_characteristics", "rated_data", "reference_data", "agreements",
    "invoice_details", "tracking_number_details"}

  /** What `for field in v` visits, as a set: the items of a list, the
      one-character strings of a string, the keys of a dict. */
  function Elements(v: Value): (es: set<Value>)
    requires HasLen(v)
    ensures Truthy(v) <==> es != {}
  {
    if v.List? then
      var es := set e | e in v.items;
      assert v.items != [] ==> v.items[0] in es;
      assert v.items == [] ==> es == {};
      es
    else if v.Str? then
      var es := set c | c in v.s :: Str([c]);
      assert |v.s| > 0 ==> Str([v.s[0]]) in es;
      assert |v.s| == 0 ==> es == {};
      es
    else
      var es := set k | k in v.entries :: Str(k);
      assert v.entries != map[] ==> var k :| k in v.entries; Str(k) in es;
      assert v.entries == map[] ==> es == {};
      es
  }

  /** Values a dict lookup accepts as a key. */
  predicate Hashable(e: Value) {
    !e.List? && !e.Dict?
  }

  /** `FIELD_TO_SOURCE.get(field)`, or the fallback when that is None. */
  function SourceOf(e: Value): string {
    if e.Str? && e.s in FieldToSource then FieldToSource[e.s] else FallbackSource
  }

  /** Every table entry names one of the six sources. */
  lemma TableNamesDataSources()
    ensures forall k :: k in FieldToSource ==> FieldToSource[k] in DataSources
  {
  }

  /** `_determine_data_sources`: the sources of the listed fields; an
      unhashable field raises `TypeError`. */
  function DetermineDataSources(missing: Value): (r: Result<set<string>>)
    requires HasLen(missing)
    ensures r.Raised? <==> exists e :: e in Elements(missing) && !Hashable(e)
    ensures r.Ok? ==> r.value <= DataSources
    ensures r.Ok? ==> (r.value == {} <==> !Truthy(missing))
    ensures r.Ok? ==> forall e :: e in Elements(missing) ==> SourceOf(e) in r.value
    ensures r.Ok? ==> forall s :: s in r.value ==> exists e :: e in Elements(missing) && SourceOf(e) == s
  {
    var es := Elements(missing);
    if exists e :: e in es && !Hashable(e) then Raised("TypeError")
    else
      TableNamesDataSources();
      var sources := set e | e in es :: SourceOf(e);
      assert es != {} ==> var e :| e in es; SourceOf(e) in sources;
      Ok(sources)
  }

  /** A field the table does not know is looked for in the invoice details. */
  lemma UnknownFieldNeedsInvoiceDetails(missing: Value, field: string)
    requires HasLen(missing) && DetermineDataSources(missing).Ok?
    requires Str(field) in Elements(missing) && field !in FieldToSource
    ensures FallbackSource in DetermineDataSources(missing).value
  {
    assert SourceOf(Str(field)) == FallbackSource;
  }

  /** Every field name the audit types require, once each: weights and
      discounts, then earned discounts and list rates, then charges. */
  const RequiredNames: seq<string> := [
    "carrierBillWeight", "calcBillWeight", "actualWeight",
    "carrierBaseDiscountEffectivePercentage", "calcBaseDiscountEffectivePercentage", "baseDiscountPercentage",
    "carrierTotalDiscountPercentage", "calcTotalDiscountPercentage",
    "carrierEarnedDiscountEffectivePercentage", "calcEarnedDiscountEffectivePercentage", "earnedDiscountPercentage",
    "carrierListRate", "calcListRate", "isCarrierMultiweight", "isCalcMultiweight",
    "carrierNetTransportationCharge", "calcNetTransportationCharge",
    "carrierTotalSurcharges", "calcTotalSurcharges",
    "fuelPercentage", "carrierTransportationFuelAmount", "calcTransportationFuelAmount"]

  /** Each field an audit type requires is one of `RequiredNames`. */
  lemma RequiredNamesListed()
    ensures forall t, i :: t in RequiredFields && 0 <= i < |RequiredFields[t]| ==> RequiredFields[t][i] in RequiredNames
  {
  }

  /** The weight and discount names are not in the table. */
  lemma WeightAndDiscountNamesUnknown()
    ensures forall i :: 0 <= i < 8 ==> RequiredNames[i] !in FieldToSource
  {
  }

  /** The earned-discount and list-rate names are not in the table. */
  lemma EarnedAndListRateNamesUnknown()
    ensures forall i :: 8 <= i < 15 ==> RequiredNames[i] !in FieldToSource
  {
  }

  /** The charge names are not in the table. */
  lemma ChargeNamesUnknown()
    ensures forall i :: 15 <= i < |RequiredNames| ==> RequiredNames[i] !in FieldToSource
  {
  }

  /** No field any audit type requires is in the table, so every field the
      reasoning agent can report missing falls back to the invoice
      details. */
  lemma RequiredFieldsUnknown()
    ensures forall t, i :: t in RequiredFields && 0 <= i < |RequiredFields[t]| ==> RequiredFields[t][i] !in FieldToSource
    ensures forall a, f :: f in Required(a) ==> f !in FieldToSource
  {
    RequiredNamesListed();
    WeightAndDiscountNamesUnknown();
    EarnedAndListRateNamesUnknown();
    ChargeNamesUnknown();
    forall f | f in RequiredNames
      ensures f !in FieldToSource
    {
      var j :| 0 <= j < |RequiredNames| && RequiredNames[j] == f;
    }
  }

  /** The getters the enrichment calls for invoice and tracking details:
      absent on the fetcher as written, or supplied. */
  datatype DetailGetters =
    | NoDetailGetters
    | DetailGetters(invoiceDetails: Value -> Value, trackingNumberDetails: Value -> Value)

  /** One postal code of the fetch context: the parcel's when truthy, else
      the rated data's (or ""); `.get` on a non-dict raises. */
  function Postal(parcel: Value, rated: Value, key: string): Result<Value> {
    if !parcel.Dict? then Raised("AttributeError")
    else if Truthy(Get(parcel.entries, key)) then Ok(Get(parcel.entries, key))
    else if !rated.Dict? then Raised("AttributeError")
    else Ok(GetOr(rated.entries, key, Str("")))
  }

  /** The fetch context; it never holds a rated-data id. */
  function FetchContext(state: Object, rated: Value, parcel: Value): (r: Result<Object>)
    ensures r.Ok? ==> "rated_data_id" !in r.value
    ensures r.Ok? ==> GetOr(r.value, "tracking_number", Str("")) == GetOr(state, "tracking_number", Str(""))
  {
    var origin :- Postal(parcel, rated, "sender_postal");
    var destination :- Postal(parcel, rated, "receiver_postal");
    Ok(map[
      "tracking_number" := GetOr(state, "tracking_number", Str("")),
      "client_id" := GetOr(state, "client_id", Str("")),
      "carrier_id" := GetOr(state, "carrier_id", Str("")),
      "origin_zip" := origin,
      "destination_zip" := destination])
  }

  /** Whether the sources call for invoice or tracking details. */
  predicate NeedsDetails(sources: set<string>) {
    "invoice_details" in sources || "tracking_number_details" in sources
  }

  /** The invoice and tracking details the sources call for; calling a
      getter that is absent raises `AttributeError`. */
  function DetailData(getters: DetailGetters, sources: set<string>, trackingNumber: Value): (r: Result<Object>)
    ensures r.Raised? <==> getters.NoDetailGetters? && NeedsDetails(sources)
    ensures r.Ok? ==> r.value.Keys <= {"invoice_details", "tracking_details"}
    ensures r.Ok? && getters.DetailGetters? && "invoice_details" in sources ==> "invoice_details" in r.value
  {
    if NeedsDetails(sources) && getters.NoDetailGetters? then Raised("AttributeError")
    else if getters.NoDetailGetters? then Ok(map[])
    else
      var invoice: Object :=
        if "invoice_details" in sources then map["invoice_details" := getters.invoiceDetails(trackingNumber)] else map[];
      var tracking: Object :=
        if "tracking_number_details" in sources then map["tracking_details" := getters.trackingNumberDetails(trackingNumber)] else map[];
      Ok(invoice + tracking)
  }

  /** The keys a round of enrichment can add. */
  const NewDataKeys: set<string> := {
    "invoice_details", "tracking_details", "reference_data", "full_tracking_analysis", "additional_services"}

  /** The missing-fields value `enrich` reads: a falsy entry counts as []. */
  function MissingValue(state: Object): Value {
    Or(GetOr(state, "missing_fields", List([])), List([]))
  }

  /** The enrichment count `enrich` reads. */
  function IterationsValue(state: Object): Value {
    GetOr(state, "enrichment_iterations", Int(0))
  }

  /** The data one round fetches: details, reference data for the audit
      type, and the generic missing-field fetch of a fetcher that is never
      in mock mode. */
  function NewData(env: Env, getters: DetailGetters, state: Object, missing: Value, sources: set<string>,
                   context: Object): (r: Result<Object>)
    requires HasLen(missing)
    ensures r.Ok? ==> r.value.Keys <= NewDataKeys
    ensures r.Raised? <==> getters.NoDetailGetters? && NeedsDetails(sources)
  {
    var details :- DetailData(getters, sources, GetOr(context, "tracking_number", Str("")));
    var reference: Object :=
      if "reference_data" in sources
      then map["reference_data" := Dict(GetReferenceData(GetOr(state, "audit_type", Str("UNKNOWN"))))]
      else map[];
    var fetched := FetchMissingData(DataFetcher(env.client, env.render, false), missing, context);
    Ok(details + reference + fetched)
  }

  /** Additional services come only with a rated-data id in the context;
      invoice details come whenever their source is needed and a getter
      exists. */
  lemma NewDataEntries(env: Env, getters: DetailGetters, state: Object, missing: Value, sources: set<string>,
                       context: Object)
    requires HasLen(missing)
    requires NewData(env, getters, state, missing, sources, context).Ok?
    ensures var r := NewData(env, getters, state, missing, sources, context).value;
      && ("additional_services" in r ==> Truthy(Get(context, "rated_data_id")))
      && (getters.DetailGetters? && "invoice_details" in sources ==> "invoice_details" in r)
  {
  }

  /** The update when nothing is missing: the enriched data and the count
      as the state holds them. */
  function Unchanged(state: Object): Object {
    map["enriched_data" := GetOr(state, "enriched_data", Dict(map[])),
        "enrichment_iterations" := IterationsValue(state)]
  }

  /** The fetching half of a round: the context, the sources the missing
      fields call for, and the data fetched from them. */
  function FetchRound(env: Env, getters: DetailGetters, state: Object, missing: Value): (r: Result<Object>)
    ensures r.Ok? ==> r.value.Keys <= NewDataKeys && "additional_services" !in r.value
  {
    var rated := Or(GetOr(state, "rated_data", Dict(map[])), Dict(map[]));
    var parcel := Or(GetOr(state, "parcel_characteristics", Dict(map[])), Dict(map[]));
    var context :- FetchContext(state, rated, parcel);
    if !HasLen(missing) then Raised("TypeError")
    else
      var sources :- DetermineDataSources(missing);
      var newData :- NewData(env, getters, state, missing, sources, context);
      NewDataEntries(env, getters, state, missing, sources, context);
      Ok(newData)
  }

  /** The merging half of a round: the fetched data over the existing
      enriched data, the count plus one, the missing fields cleared. */
  function MergeRound(state: Object, newData: Object): (r: Result<Object>)
    ensures r.Ok? <==> DictLike(GetOr(state, "enriched_data", Dict(map[]))) && Increment(IterationsValue(state)).Ok?
    ensures r.Ok? ==>
      var u, existing := r.value, AsDict(GetOr(state, "enriched_data", Dict(map[])));
      && u.Keys == {"enriched_data", "enrichment_iterations", "missing_fields"}
      && u["missing_fields"] == List([])
      && Ok(u["enrichment_iterations"]) == Increment(IterationsValue(state))
      && u["enriched_data"].Dict?
      && (forall k :: k in u["enriched_data"].entries <==> k in existing || k in newData)
      && (forall k :: k in newData ==> u["enriched_data"].entries[k] == newData[k])
      && (forall k :: k in existing && k !in newData ==> u["enriched_data"].entries[k] == existing[k])
  {
    var existing := Or(GetOr(state, "enriched_data", Dict(map[])), Dict(map[]));
    if !existing.Dict? then Raised("TypeError")
    else
      var iterations :- Increment(IterationsValue(state));
      Ok(map["enriched_data" := Dict(existing.entries + newData),
             "enrichment_iterations" := iterations,
             "missing_fields" := List([])])
  }

  /** A merge over enriched data of the declared type succeeds, counts one
      more round and keeps every fetched key. */
  lemma MergeKeeps(state: Object, newData: Object, key: string, n: int)
    requires DictLike(GetOr(state, "enriched_data", Dict(map[]))) && IterationsValue(state) == Int(n)
    requires key in newData
    ensures MergeRound(state, newData).Ok?
    ensures MergeRound(state, newData).value["enrichment_iterations"] == Int(n + 1)
    ensures key in MergeRound(state, newData).value["enriched_data"].entries
  {
  }

  /** `enrich` with the given detail getters. With nothing missing it hands
      back the enriched data and count unchanged; otherwise it merges the
      fetched data over the existing enriched data, adds one to the count
      and clears the missing fields. */
  function EnrichWith(env: Env, getters: DetailGetters, state: Object): (r: Result<Object>)
    ensures !Truthy(MissingValue(state)) ==> r == Ok(Unchanged(state))
    ensures Truthy(MissingValue(state)) && r.Ok? ==> FetchRound(env, getters, state, MissingValue(state)).Ok?
    ensures Truthy(MissingValue(state)) && FetchRound(env, getters, state, MissingValue(state)).Ok? ==>
      r == MergeRound(state, FetchRound(env, getters, state, MissingValue(state)).value)
  {
    var missing := MissingValue(state);
    if !Truthy(missing) then Ok(Unchanged(state))
    else
      var newData :- FetchRound(env, getters, state, missing);
      MergeRound(state, newData)
  }

  /** The invoice and tracking-number getters the enrichment evidently
      means to call. */
  function Supplied(env: Env): DetailGetters {
    DetailGetters(env.invoiceDetails, env.trackingNumberDetails)
  }

  /** `enrich` with the invoice and tracking-number getters supplied. */
  function Enrich(env: Env, state: Object): Result<Object> {
    EnrichWith(env, Supplied(env), state)
  }

  /** `enrich` as written: the fetcher has no invoice or tracking-number
      getter, so asking for either raises `AttributeError`. */
  function EnrichAsWritten(env: Env, state: Object): Result<Object> {
    EnrichWith(env, NoDetailGetters, state)
  }

  /** With nothing missing the update writes back what the state holds, so
      merging it changes nothing. */
  lemma PassthroughIsNoOp(env: Env, getters: DetailGetters, state: Object)
    requires !Truthy(MissingValue(state))
    requires "enriched_data" in state && "enrichment_iterations" in state
    ensures EnrichWith(env, getters, state).Ok?
    ensures state + EnrichWith(env, getters, state).value == state
  {
  }

  /** A round of enrichment keeps every entry of the existing enriched data
      it does not refetch, adds only fetchable keys, clears the missing
      fields and adds one to the count. */
  lemma EnrichRound(env: Env, getters: DetailGetters, state: Object)
    requires Truthy(MissingValue(state))
    requires EnrichWith(env, getters, state).Ok?
    ensures var u, existing := EnrichWith(env, getters, state).value, AsDict(GetOr(state, "enriched_data", Dict(map[])));
      && u.Keys == {"enriched_data", "enrichment_iterations", "missing_fields"}
      && u["missing_fields"] == List([])
      && Ok(u["enrichment_iterations"]) == Increment(IterationsValue(state))
      && u["enriched_data"].Dict?
      && (forall k :: k in existing ==> k in u["enriched_data"].entries)
      && (forall k :: k in u["enriched_data"].entries && k !in existing ==> k in NewDataKeys)
      && (forall k :: k in existing && k !in NewDataKeys ==> u["enriched_data"].entries[k] == existing[k])
  {
    var newData := FetchRound(env, getters, state, MissingValue(state)).value;
    assert EnrichWith(env, getters, state) == MergeRound(state, newData);
  }

  /** The additional services are never fetched: the context carries no
      rated-data id, so an `additional_services` entry of the result is
      the one already there. */
  lemma AdditionalServicesNeverFetched(env: Env, getters: DetailGetters, state: Object)
    requires Truthy(MissingValue(state))
    requires EnrichWith(env, getters, state).Ok?
    ensures var u, existing := EnrichWith(env, getters, state).value, AsDict(GetOr(state, "enriched_data", Dict(map[])));
      "additional_services" in u["enriched_data"].entries ==>
        "additional_services" in existing
        && u["enriched_data"].entries["additional_services"] == existing["additional_services"]
  {
    var newData := FetchRound(env, getters, state, MissingValue(state)).value;
    assert EnrichWith(env, getters, state) == MergeRound(state, newData);
  }

  /** Without the getters a round raises exactly where details are needed,
      and otherwise fetches what the corrected round fetches. */
  lemma FetchRoundWithoutGetters(env: Env, getters: DetailGetters, state: Object, missing: Value)
    requires getters.DetailGetters?
    ensures FetchRound(env, NoDetailGetters, state, missing) == FetchRound(env, getters, state, missing)
         || FetchRound(env, NoDetailGetters, state, missing) == Raised("AttributeError")
  {
    var rated := Or(GetOr(state, "rated_data", Dict(map[])), Dict(map[]));
    var parcel := Or(GetOr(state, "parcel_characteristics", Dict(map[])), Dict(map[]));
    var context := FetchContext(state, rated, parcel);
    if context.Ok? && HasLen(missing) && DetermineDataSources(missing).Ok? {
      var sources := DetermineDataSources(missing).value;
      if !NeedsDetails(sources) {
        assert DetailData(NoDetailGetters, sources, GetOr(context.value, "tracking_number", Str("")))
            == DetailData(getters, sources, GetOr(context.value, "tracking_number", Str("")));
      }
    }
  }

  /** The code as written and the corrected one agree except where details
      are needed, and there the code as written raises. */
  lemma AsWrittenDiffersOnlyOnDetails(env: Env, state: Object)
    ensures EnrichAsWritten(env, state) == Enrich(env, state) || EnrichAsWritten(env, state) == Raised("AttributeError")
  {
    FetchRoundWithoutGetters(env, Supplied(env), state, MissingValue(state));
  }

  /** The state the workflow hands to enrichment after reasoning reported
      the given fields missing, with the data the initial fetch leaves. */
  predicate AfterReasoning(state: Object, xs: seq<string>) {
    && GetOr(state, "missing_fields", List([])) == StrList(xs)
    && Or(GetOr(state, "parcel_characteristics", Dict(map[])), Dict(map[])).Dict?
    && Or(GetOr(state, "rated_data", Dict(map[])), Dict(map[])).Dict?
  }

  /** A round whose context can be built and whose fields call for
      invoice details: it raises without the getters, and with them fetches
      the invoice details. */
  lemma RoundNeedingInvoice(env: Env, getters: DetailGetters, state: Object, missing: Value)
    requires FetchContext(state, Or(GetOr(state, "rated_data", Dict(map[])), Dict(map[])),
                          Or(GetOr(state, "parcel_characteristics", Dict(map[])), Dict(map[]))).Ok?
    requires HasLen(missing) && DetermineDataSources(missing).Ok?
    requires "invoice_details" in DetermineDataSources(missing).value
    ensures getters.NoDetailGetters? ==> FetchRound(env, getters, state, missing) == Raised("AttributeError")
    ensures getters.DetailGetters? ==>
              FetchRound(env, getters, state, missing).Ok?
              && "invoice_details" in FetchRound(env, getters, state, missing).value
  {
  }

  /** The missing fields of a state after reasoning, and where an unknown
      one leads. */
  lemma UnknownFieldAfterReasoning(state: Object, xs: seq<string>, i: nat)
    requires AfterReasoning(state, xs)
    requires i < |xs| && xs[i] !in FieldToSource
    ensures Truthy(MissingValue(state)) && HasLen(MissingValue(state))
    ensures DetermineDataSources(MissingValue(state)).Ok?
    ensures "invoice_details" in DetermineDataSources(MissingValue(state)).value
    ensures FetchContext(state, Or(GetOr(state, "rated_data", Dict(map[])), Dict(map[])),
                         Or(GetOr(state, "parcel_characteristics", Dict(map[])), Dict(map[]))).Ok?
  {
    var missing := MissingValue(state);
    assert missing.items[i] == Str(xs[i]);
    assert Str(xs[i]) in Elements(missing);
    UnknownFieldNeedsInvoiceDetails(missing, xs[i]);
  }

  /** As written, enrichment fails whenever a reported field is unknown to
      the table: its source is the invoice details, and the fetcher has no
      getter for them. */
  lemma AsWrittenFailsOnUnknownField(env: Env, state: Object, xs: seq<string>, i: nat)
    requires AfterReasoning(state, xs)
    requires i < |xs| && xs[i] !in FieldToSource
    ensures EnrichAsWritten(env, state) == Raised("AttributeError")
  {
    UnknownFieldAfterReasoning(state, xs, i);
    RoundNeedingInvoice(env, NoDetailGetters, state, MissingValue(state));
  }

  /** Corrected, a round whose enriched data and count have their declared
      types succeeds, and an unknown field brings in the invoice details. */
  lemma CorrectedSucceedsOnUnknownField(env: Env, state: Object, xs: seq<string>, i: nat, n: int)
    requires AfterReasoning(state, xs)
    requires i < |xs| && xs[i] !in FieldToSource
    requires DictLike(GetOr(state, "enriched_data", Dict(map[]))) && IterationsValue(state) == Int(n)
    ensures Enrich(env, state).Ok?
    ensures var u := Enrich(env, state).value;
      && u["enrichment_iterations"] == Int(n + 1)
      && "invoice_details" in u["enriched_data"].entries
  {
    var getters := Supplied(env);
    UnknownFieldAfterReasoning(state, xs, i);
    RoundNeedingInvoice(env, getters, state, MissingValue(state));
    MergeKeeps(state, FetchRound(env, getters, state, MissingValue(state)).value, "invoice_details", n);
  }

  /** As written, enrichment fails after any report of missing fields:
      each field the reasoning agent can name is unknown to the table. */
  lemma AsWrittenFailsAfterReasoning(env: Env, state: Object, xs: seq<string>, auditType: Value)
    requires AfterReasoning(state, xs) && xs != []
    requires forall f :: f in xs ==> f in Required(auditType)
    ensures "invoice_details" in DetermineDataSources(MissingValue(state)).value
    ensures EnrichAsWritten(env, state) == Raised("AttributeError")
  {
    RequiredFieldsUnknown();
    assert xs[0] in Required(auditType);
    UnknownFieldAfterReasoning(state, xs, 0);
    AsWrittenFailsOnUnknownField(env, state, xs, 0);
  }

  /** `enrich_data` with the given detail getters (`NoDetailGetters` is the
      code as written): logging `iterations + 1` first raises on a count
      that is not a number, and listing the keys of the result's enriched
      data raises when it is not a dict. */
  function EnrichNode(env: Env, getters: DetailGetters, state: Object): (r: Result<Object>)
    ensures r.Ok? ==> r == EnrichWith(env, getters, state)
    ensures r.Ok? ==> Increment(IterationsValue(state)).Ok? && GetOr(r.value, "enriched_data", Dict(map[])).Dict?
    ensures (EnrichWith(env, getters, state).Ok? && Increment(IterationsValue(state)).Ok? &&
             GetOr(EnrichWith(env, getters, state).value, "enriched_data", Dict(map[])).Dict?) ==> r.Ok?
    ensures Increment(IterationsValue(state)).Ok? && EnrichWith(env, getters, state).Raised? ==>
      r == EnrichWith(env, getters, state)
  {
    var _ :- Increment(IterationsValue(state));
    var u :- EnrichWith(env, getters, state);
    if !GetOr(u, "enriched_data", Dict(map[])).Dict? then Raised("AttributeError") else Ok(u)
  }
}
