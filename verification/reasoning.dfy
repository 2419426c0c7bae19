/** The audit reasoning agent (AuditReasoningAgent): fixed answers for
    matched and exception audits, a data-sufficiency check against the fields
    each audit type requires, and otherwise a language-model analysis whose
    cause and error case become the node's update. */
module Reasoning {
  import opened Values
  import opened Text
  import opened Oracles

  /** `REQUIRED_FIELDS`: the rated-data or parcel fields each audit type
      needs before it can be analysed. */
  const RequiredFields: map<string, seq<string>> := map[
    "BILL_WEIGHT_AUDIT" := ["carrierBillWeight", "calcBillWeight", "actualWeight"],
    "BASE_DISCOUNTS_PERCENTAGE_AUDIT" := ["carrierBaseDiscountEffectivePercentage",
                                          "calcBaseDiscountEffectivePercentage", "baseDiscountPercentage"],
    "DISCOUNTS_PERCENTAGE_AUDIT" := ["carrierTotalDiscountPercentage", "calcTotalDiscountPercentage"],
    "EARNED_DISCOUNTS_PERCENTAGE_AUDIT" := ["carrierEarnedDiscountEffectivePercentage",
                                            "calcEarnedDiscountEffectivePercentage", "earnedDiscountPercentage"],
    "LIST_RATE_AUDIT" := ["carrierListRate", "calcListRate"],
    "LIST_RATE_NULL_AUDIT" := ["carrierListRate"],
    "MWT_LIST_RATE_AUDIT" := ["carrierListRate", "calcListRate", "isCarrierMultiweight", "isCalcMultiweight"],
    "NET_TRANSPORTATION_AUDIT" := ["carrierNetTransportationCharge", "calcNetTransportationCharge"],
    "SURCHARGE_AUDIT" := ["carrierTotalSurcharges", "calcTotalSurcharges"],
    "SURCHARGE_APPLICABILITY_AUDIT" := ["carrierTotalSurcharges", "calcTotalSurcharges"],
    "SURCHARGE_NULL_AUDIT" := ["carrierTotalSurcharges"],
    "FUEL_SURCHARGE_AUDIT" := ["fuelPercentage", "carrierTransportationFuelAmount", "calcTransportationFuelAmount"],
    "Matched" := [],
    "EXCEPTION" := []]

  /** `REQUIRED_FIELDS.get(audit_type, [])` for a hashable audit type. */
  function Required(auditType: Value): seq<string> {
    if auditType.Str? && auditType.s in RequiredFields then RequiredFields[auditType.s] else []
  }

  /** The fields common to every analysis, sent ahead of the type's own. */
  const CommonFields: seq<string> := [
    "tracking_number", "invoice_number", "category", "carrier_total_net_charge",
    "calc_total_net_charge", "over_rated", "message"]

  /** The keys of the reasoning node's update. */
  const ReasoningKeys: set<string> := {"reasoning_status", "reasoning_result", "missing_fields", "audit_cause", "error_case"}

  /** `combined.get(field) is None`. */
  predicate IsNone(combined: Object, field: string) {
    field !in combined || combined[field] == Null
  }

  /** The required fields, in order, whose value is None. */
  function MissingFields(required: seq<string>, combined: Object): (missing: seq<string>)
    ensures |missing| <= |required|
    ensures forall f :: f in missing <==> f in required && IsNone(combined, f)
  {
    if required == [] then []
    else
      var rest := MissingFields(required[..|required| - 1], combined);
      var f := required[|required| - 1];
      if IsNone(combined, f) then rest + [f] else rest
  }

  /** The missing fields of two lists of requirements are those of each,
      in order. */
  lemma {:induction false} MissingFieldsConcat(a: seq<string>, b: seq<string>, combined: Object)
    ensures MissingFields(a + b, combined) == MissingFields(a, combined) + MissingFields(b, combined)
    decreases |b|
  {
    if b != [] {
      MissingFieldsConcat(a, b[..|b| - 1], combined);
      assert (a + b)[..|a + b| - 1] == a + b[..|b| - 1];
    } else {
      assert a + b == a;
    }
  }

  /** Supplying values never adds a missing field. */
  lemma MissingFieldsAntitone(required: seq<string>, combined: Object, more: Object)
    requires forall f :: f in combined && combined[f] != Null ==> f in more && more[f] != Null
    ensures forall f :: f in MissingFields(required, more) ==> f in MissingFields(required, combined)
  {
  }

  /** `_check_required_fields`: an unhashable audit type, or parcel or rated
      data that `**` cannot unpack, raises `TypeError`; otherwise the
      required fields that are None in the parcel data overlaid with the
      rated data. */
  function CheckRequiredFields(auditType: Value, rated: Value, parcel: Value): (r: Result<seq<string>>)
    ensures r.Raised? <==> auditType.List? || auditType.Dict? || !parcel.Dict? || !rated.Dict?
    ensures r.Raised? ==> r.kind == "TypeError"
    ensures r.Ok? ==> forall f :: f in r.value <==>
      f in Required(auditType) && (f in rated.entries ==> rated.entries[f] == Null)
        && (f !in rated.entries ==> IsNone(parcel.entries, f))
  {
    if auditType.List? || auditType.Dict? then Raised("TypeError")
    else if !parcel.Dict? || !rated.Dict? then Raised("TypeError")
    else Ok(MissingFields(Required(auditType), parcel.entries + rated.entries))
  }

  /** A None in the rated data hides the parcel's value of the same field. */
  lemma RatedNoneHidesParcel(auditType: Value, rated: Object, parcel: Object, f: string)
    requires auditType.Str? && f in Required(auditType)
    requires f in rated && rated[f] == Null
    ensures f in CheckRequiredFields(auditType, Dict(rated), Dict(parcel)).value
  {
  }

  /** Types without requirements (matched, exception, unknown ones) are
      never short of data. */
  lemma NoRequirementsNothingMissing(auditType: Value, rated: Object, parcel: Object)
    requires !auditType.List? && !auditType.Dict?
    requires !(auditType.Str? && auditType.s in RequiredFields) || auditType in {Str("Matched"), Str("EXCEPTION")}
    ensures CheckRequiredFields(auditType, Dict(rated), Dict(parcel)) == Ok([])
  {
    assert Required(auditType) == [];
  }

  /** `_extract_relevant_data` over a list of fields: each field present in
      the rated data is taken from it (even when None), otherwise from the
      parcel data when present there. */
  function ExtractFields(fields: seq<string>, rated: Object, parcel: Object): (r: Object)
    ensures forall k :: k in r <==> k in fields && (k in rated || k in parcel)
    ensures forall k :: k in r ==> r[k] == if k in rated then rated[k] else parcel[k]
  {
    if fields == [] then map[]
    else
      var rest := ExtractFields(fields[..|fields| - 1], rated, parcel);
      var f := fields[|fields| - 1];
      if f in rated then rest[f := rated[f]]
      else if f in parcel then rest[f := parcel[f]]
      else rest
  }

  /** `_extract_relevant_data`: the common fields and the type's own. */
  function ExtractRelevant(auditType: Value, rated: Object, parcel: Object): Object {
    ExtractFields(CommonFields + Required(auditType), rated, parcel)
  }

  /** A Markdown code fence. */
  const Fence: string := "```"

  /** The fence that opens a JSON block. */
  const JsonFence: string := Fence + "json"

  /** The text of a fenced block: between the first `sep` and the next one,
      up to the first plain fence, stripped. */
  function FencedText(content: string, sep: string): string
    requires Contains(content, sep)
  {
    Strip(Before(Before(After(content, sep), sep), Fence))
  }

  /** The text `_parse_response` hands to the JSON decoder: a ```json
      block, else a ``` block, else the whole reply, stripped. */
  function JsonText(content: string): string {
    if Contains(content, JsonFence) then FencedText(content, JsonFence)
    else if Contains(content, Fence) then FencedText(content, Fence)
    else Strip(content)
  }

  /** `_parse_response`: the decoded reply, or, when it is not JSON, a
      sufficient result whose cause and reasoning are the stripped reply. */
  function ParseResponse(decode: string -> Option<Value>, content: string): (r: Value)
    ensures decode(JsonText(content)).Some? ==> r == decode(JsonText(content)).value
    ensures decode(JsonText(content)).None? ==>
      r == Dict(map["status" := Str("sufficient"), "cause" := Str(Strip(content)),
                    "reasoning" := Str(Strip(content))])
  {
    match decode(JsonText(content))
    case Some(v) => v
    case None => Dict(map["status" := Str("sufficient"), "cause" := Str(Strip(content)),
                          "reasoning" := Str(Strip(content))])
  }

  /** A text without backticks, closed by a fence, holds no ```json. */
  lemma NoJsonFenceIn(b: string)
    requires '`' !in b
    ensures !Contains(b + Fence, JsonFence)
  {
    var t := b + Fence;
    forall j | 0 <= j
      ensures !OccursAt(t, JsonFence, j)
    {
      if j < |b| && j + 7 <= |t| {
        assert t[j..j + 7][0] == b[j];
      }
    }
    ContainsIff(t, JsonFence);
  }

  /** In `b + Fence` with no backtick in `b`, the first fence closes `b`. */
  lemma FirstFenceAfter(b: string)
    requires '`' !in b
    ensures Find(b + Fence, Fence) == |b|
  {
    var t := b + Fence;
    assert OccursAt(t, Fence, |b|);
    forall j | 0 <= j < |b|
      ensures !OccursAt(t, Fence, j)
    {
      assert t[j] == b[j];
    }
  }

  /** A reply that is one ```json block whose body has no backtick is
      decoded from that body, stripped. */
  lemma ParseFencedJson(b: string)
    requires '`' !in b
    ensures JsonText(JsonFence + b + Fence) == Strip(b)
  {
    var c := JsonFence + b + Fence;
    assert OccursAt(c, JsonFence, 0);
    assert Find(c, JsonFence) == 0;
    assert After(c, JsonFence) == b + Fence;
    NoJsonFenceIn(b);
    assert Before(b + Fence, JsonFence) == b + Fence;
    FirstFenceAfter(b);
    assert Before(b + Fence, Fence) == b;
  }

  /** A reply without fences is decoded whole, stripped. */
  lemma ParseUnfenced(content: string)
    requires !Contains(content, Fence)
    ensures JsonText(content) == Strip(content)
  {
    if Contains(content, JsonFence) {
      ContainsExtended(content, Fence, "json");
    }
  }

  /** The five-key update of the reasoning node. */
  function ReasoningUpdate(status: string, result: Value, missing: Value, cause: Value, errorCase: Value): (u: Object)
    ensures u.Keys == ReasoningKeys
    ensures u["reasoning_status"] == Str(status) && u["reasoning_result"] == result
    ensures u["missing_fields"] == missing && u["audit_cause"] == cause && u["error_case"] == errorCase
  {
    map["reasoning_status" := Str(status), "reasoning_result" := result, "missing_fields" := missing,
        "audit_cause" := cause, "error_case" := errorCase]
  }

  /** The fixed texts of the matched answer. */
  const MatchedResult: string := "No discrepancy found. Carrier charges match calculated charges."
  const MatchedCause: string := "Matched - No audit required. Carrier charges are correct."
  const MatchedCase: string := "Case 4: No Error - Calculation Correct"

  /** The update for a matched audit. */
  const MatchedUpdate: Object := ReasoningUpdate("sufficient", Str(MatchedResult), List([]), Str(MatchedCause), Str(MatchedCase))

  /** The default message of a rating exception. */
  const DefaultExceptionMessage: string := "Exception occurred during rating"

  /** The update for a rating exception with the given message. */
  function ExceptionUpdate(message: string): Object {
    ReasoningUpdate("sufficient", Str("Exception: " + message), List([]),
                    Str("Rating exception: " + message), Str("Exception"))
  }

  /** The error case of an audit short of data. */
  const ShortOfDataCase: string := "Case 3: Improperly Populated Parcel Characteristic (Possible - need invoice details)"

  /** The reasoning result of an audit short of data. */
  function MissingMessage(auditTypeText: string): string {
    "Missing required fields for " + auditTypeText
  }

  /** The update when required fields are missing. */
  function InsufficientUpdate(auditTypeText: string, missing: seq<string>): Object {
    ReasoningUpdate("insufficient", Str(MissingMessage(auditTypeText)), StrList(missing), Null, Str(ShortOfDataCase))
  }

  /** The error case when the model names none. */
  function CompletedCase(auditTypeText: string): string {
    "Case: " + auditTypeText + " - Analysis Complete"
  }

  /** What the reasoning model is asked about: the instruction for the audit
      type and the data blocks of the user message. */
  function ReasonRequestFor(auditType: Value, rated: Object, parcel: Object, state: Object): (q: ReasonRequest)
    ensures q.prompt == BillWeightReasoningPrompt <==> auditType == Str("BILL_WEIGHT_AUDIT")
    ensures q.ratedData.Keys <= (set f | f in CommonFields + Required(auditType))
  {
    ReasonRequest(
      if auditType == Str("BILL_WEIGHT_AUDIT") then BillWeightReasoningPrompt else GeneralReasoningPrompt,
      auditType,
      ExtractRelevant(auditType, rated, parcel),
      parcel,
      GetOr(state, "agreements", Dict(map[])),
      GetOr(state, "reference_data", Dict(map[])),
      GetOr(state, "enriched_data", Dict(map[])))
  }

  /** `_analyze_discrepancy_with_case`: the model's cause (falling back to
      its reasoning, then to the raw reply) and its error case (None when
      absent). A model exception escapes; so does `.get` on a reply that
      decodes to something other than an object. */
  function AnalyzeWithCase(env: Env, auditType: Value, rated: Object, parcel: Object, state: Object): (r: Result<(Value, Value)>)
    ensures env.reasoningModel(ReasonRequestFor(auditType, rated, parcel, state)).Threw? ==>
      r == Raised(env.reasoningModel(ReasonRequestFor(auditType, rated, parcel, state)).kind)
    ensures r.Ok? ==> (env.reasoningModel(ReasonRequestFor(auditType, rated, parcel, state)).Returned? &&
      var content := env.reasoningModel(ReasonRequestFor(auditType, rated, parcel, state)).value;
      var m := ParseResponse(env.decodeJson, content);
      && m.Dict?
      && r.value.0 == GetOr(m.entries, "cause", GetOr(m.entries, "reasoning", Str(content)))
      && r.value.1 == Get(m.entries, "error_case"))
  {
    match env.reasoningModel(ReasonRequestFor(auditType, rated, parcel, state))
    case Threw(kind, _) => Raised(kind)
    case Returned(content) =>
      var m := ParseResponse(env.decodeJson, content);
      if !m.Dict? then Raised("AttributeError")
      else Ok((GetOr(m.entries, "cause", GetOr(m.entries, "reasoning", Str(content))), Get(m.entries, "error_case")))
  }

  /** The audit type `reason` reads. */
  function AuditTypeOf(state: Object): Value {
    GetOr(state, "audit_type", Str("UNKNOWN"))
  }

  /** The rated data `reason` reads: a falsy entry counts as an empty dict. */
  function RatedOf(state: Object): Value {
    Or(GetOr(state, "rated_data", Dict(map[])), Dict(map[]))
  }

  /** The parcel characteristics `reason` reads, likewise. */
  function ParcelOf(state: Object): Value {
    Or(GetOr(state, "parcel_characteristics", Dict(map[])), Dict(map[]))
  }

  /** `reason`, once the audit type, rated data and parcel characteristics
      have been read from the state. */
  function ReasonOn(env: Env, auditType: Value, rated: Value, parcel: Value, state: Object): (r: Result<Object>)
    ensures r.Ok? ==> r.value.Keys == ReasoningKeys
  {
    if auditType == Str("Matched") then Ok(MatchedUpdate)
    else if auditType == Str("EXCEPTION") then
      if !rated.Dict? then Raised("AttributeError")
      else
        var message := GetOr(rated.entries, "message", Str(DefaultExceptionMessage));
        Ok(ExceptionUpdate(PyStr(env.render, message)))
    else ReasonChecked(env, auditType, rated, parcel, state)
  }

  /** `reason` for audit types other than matched and exception: the
      sufficiency check, then the model's analysis. */
  function ReasonChecked(env: Env, auditType: Value, rated: Value, parcel: Value, state: Object): (r: Result<Object>)
    ensures r.Ok? ==> r.value.Keys == ReasoningKeys
  {
    var missing :- CheckRequiredFields(auditType, rated, parcel);
    if missing != [] then Ok(InsufficientUpdate(PyStr(env.render, auditType), missing))
    else
      var analysis :- AnalyzeWithCase(env, auditType, rated.entries, parcel.entries, state);
      Ok(AnalysedUpdate(env.render, auditType, analysis.0, analysis.1))
  }

  /** The update after a successful analysis: the model's cause is both the
      result and the audit cause; a falsy error case becomes a generic one. */
  function AnalysedUpdate(render: Value -> string, auditType: Value, cause: Value, llmCase: Value): Object {
    ReasoningUpdate("sufficient", cause, List([]), cause,
                    Or(llmCase, Str(CompletedCase(PyStr(render, auditType)))))
  }

  /** `reason`. */
  function Reason(env: Env, state: Object): (r: Result<Object>)
    ensures r.Ok? ==> r.value.Keys == ReasoningKeys
  {
    ReasonOn(env, AuditTypeOf(state), RatedOf(state), ParcelOf(state), state)
  }

  /** The shape every update of `reason` has: sufficient with no missing
      fields, or insufficient with a non-empty list of missing field names
      and no cause. */
  predicate StatusConsistent(u: Object)
    requires u.Keys == ReasoningKeys
  {
    && (u["reasoning_status"] == Str("sufficient") || u["reasoning_status"] == Str("insufficient"))
    && (u["reasoning_status"] == Str("sufficient") ==> u["missing_fields"] == List([]))
    && (u["reasoning_status"] == Str("insufficient") ==>
          u["audit_cause"] == Null && IsStrList(u["missing_fields"]) && u["missing_fields"] != List([]))
  }

  /** A sufficient update with no missing fields is consistent. */
  lemma SufficientConsistent(result: Value, cause: Value, errorCase: Value)
    ensures StatusConsistent(ReasoningUpdate("sufficient", result, List([]), cause, errorCase))
  {
    var u := ReasoningUpdate("sufficient", result, List([]), cause, errorCase);
    assert u["reasoning_status"] != Str("insufficient") by {
      assert |"sufficient"| != |"insufficient"|;
    }
  }

  /** An insufficient update is consistent exactly when something is missing. */
  lemma InsufficientConsistent(auditTypeText: string, missing: seq<string>)
    requires missing != []
    ensures StatusConsistent(InsufficientUpdate(auditTypeText, missing))
  {
    var u := InsufficientUpdate(auditTypeText, missing);
    assert u["reasoning_status"] != Str("sufficient") by {
      assert |"sufficient"| != |"insufficient"|;
    }
    assert |StrList(missing).items| > 0;
  }

  /** Every update `reason` produces is consistent. */
  lemma ReasonStatus(env: Env, auditType: Value, rated: Value, parcel: Value, state: Object)
    requires ReasonOn(env, auditType, rated, parcel, state).Ok?
    ensures StatusConsistent(ReasonOn(env, auditType, rated, parcel, state).value)
  {
    var u := ReasonOn(env, auditType, rated, parcel, state).value;
    if auditType == Str("Matched") {
      SufficientConsistent(Str(MatchedResult), Str(MatchedCause), Str(MatchedCase));
    } else if auditType == Str("EXCEPTION") {
      var message := PyStr(env.render, GetOr(rated.entries, "message", Str(DefaultExceptionMessage)));
      assert u == ExceptionUpdate(message);
      SufficientConsistent(Str("Exception: " + message), Str("Rating exception: " + message), Str("Exception"));
    } else {
      CheckedStatus(env, auditType, rated, parcel, state);
    }
  }

  /** The checked path yields consistent updates. */
  lemma CheckedStatus(env: Env, auditType: Value, rated: Value, parcel: Value, state: Object)
    requires ReasonChecked(env, auditType, rated, parcel, state).Ok?
    ensures StatusConsistent(ReasonChecked(env, auditType, rated, parcel, state).value)
  {
    var u := ReasonChecked(env, auditType, rated, parcel, state).value;
    var missing := CheckRequiredFields(auditType, rated, parcel).value;
    if missing != [] {
      assert u == InsufficientUpdate(PyStr(env.render, auditType), missing);
      InsufficientConsistent(PyStr(env.render, auditType), missing);
    } else {
      var a := AnalyzeWithCase(env, auditType, rated.entries, parcel.entries, state).value;
      assert u == AnalysedUpdate(env.render, auditType, a.0, a.1);
      SufficientConsistent(a.0, a.0, Or(a.1, Str(CompletedCase(PyStr(env.render, auditType)))));
    }
  }

  /** Only data, never the model, decides sufficiency: for other types the
      status is "insufficient" exactly when a required field is None, and
      the missing list is those fields; whatever status the model reports
      is ignored. */
  lemma InsufficientIffMissing(env: Env, auditType: Value, rated: Value, parcel: Value, state: Object)
    requires ReasonChecked(env, auditType, rated, parcel, state).Ok?
    ensures CheckRequiredFields(auditType, rated, parcel).Ok?
    ensures var u, missing := ReasonChecked(env, auditType, rated, parcel, state).value,
                              CheckRequiredFields(auditType, rated, parcel).value;
      && (u["reasoning_status"] == Str("insufficient") <==> missing != [])
      && u["missing_fields"] == StrList(missing)
  {
  }

  /** Matched and exception audits, and audits short of data, are answered
      without consulting the model. */
  lemma FixedAnswersIgnoreModel(env: Env, auditType: Value, rated: Value, parcel: Value, state: Object,
                                model: ReasonRequest -> Attempt<string>, decode: string -> Option<Value>)
    requires auditType == Str("Matched") || auditType == Str("EXCEPTION")
             || (CheckRequiredFields(auditType, rated, parcel).Ok? && CheckRequiredFields(auditType, rated, parcel).value != [])
    ensures ReasonOn(env, auditType, rated, parcel, state)
         == ReasonOn(env.(reasoningModel := model, decodeJson := decode), auditType, rated, parcel, state)
  {
  }

  /** A matched audit is sufficient with the fixed case 4 answer. */
  lemma MatchedAnswer(env: Env, state: Object)
    requires AuditTypeOf(state) == Str("Matched")
    ensures Reason(env, state) == Ok(MatchedUpdate)
    ensures MatchedUpdate["reasoning_status"] == Str("sufficient")
    ensures MatchedUpdate["error_case"] == Str(MatchedCase)
  {
  }

  /** An exception audit quotes the rated data's message, or a default when
      there is none. */
  lemma ExceptionAnswer(env: Env, state: Object)
    requires AuditTypeOf(state) == Str("EXCEPTION")
    ensures RatedOf(state).Dict? ==>
      Reason(env, state) == Ok(ExceptionUpdate(PyStr(env.render,
        GetOr(RatedOf(state).entries, "message", Str(DefaultExceptionMessage)))))
    ensures !RatedOf(state).Dict? ==> Reason(env, state) == Raised("AttributeError")
  {
  }

  /** When the model answers with an object, its cause becomes both the
      reasoning result and the audit cause, and its error case is kept when
      truthy and replaced by a generic one otherwise. */
  lemma AnalysedAnswer(env: Env, auditType: Value, rated: Value, parcel: Value, state: Object)
    requires CheckRequiredFields(auditType, rated, parcel) == Ok([])
    requires ReasonChecked(env, auditType, rated, parcel, state).Ok?
    ensures var u := ReasonChecked(env, auditType, rated, parcel, state).value;
      var a := AnalyzeWithCase(env, auditType, rated.entries, parcel.entries, state);
      && a.Ok?
      && u["reasoning_status"] == Str("sufficient")
      && u["reasoning_result"] == u["audit_cause"] == a.value.0
      && (Truthy(a.value.1) ==> u["error_case"] == a.value.1)
      && (!Truthy(a.value.1) ==> u["error_case"] == Str(CompletedCase(PyStr(env.render, auditType))))
  {
  }

  /** An insufficient answer depends on nothing but the audit type, the
      rated data and the parcel characteristics: any state that agrees on
      those gets the same answer. */
  lemma InsufficientDependsOnDataOnly(env: Env, s: Object, t: Object)
    requires AuditTypeOf(s) == AuditTypeOf(t) && RatedOf(s) == RatedOf(t) && ParcelOf(s) == ParcelOf(t)
    requires Reason(env, s).Ok? && Reason(env, s).value["reasoning_status"] == Str("insufficient")
    ensures Reason(env, t) == Reason(env, s)
  {
    var a, r, p := AuditTypeOf(s), RatedOf(s), ParcelOf(s);
    assert Str("sufficient") != Str("insufficient") by {
      assert |"sufficient"| != |"insufficient"|;
    }
    if a != Str("Matched") && a != Str("EXCEPTION") {
      InsufficientIffMissing(env, a, r, p, s);
    }
  }

  /** An answer other than sufficient comes from the sufficiency check
      alone: it is given only on dictionary data, and its missing fields
      are a non-empty list of fields the audit type requires. */
  lemma InsufficientNamesRequired(env: Env, state: Object)
    requires Reason(env, state).Ok? && Reason(env, state).value["reasoning_status"] != Str("sufficient")
    ensures RatedOf(state).Dict? && ParcelOf(state).Dict?
    ensures CheckRequiredFields(AuditTypeOf(state), RatedOf(state), ParcelOf(state)).Ok?
    ensures var xs := CheckRequiredFields(AuditTypeOf(state), RatedOf(state), ParcelOf(state)).value;
      && xs != []
      && Reason(env, state).value["missing_fields"] == StrList(xs)
      && forall f :: f in xs ==> f in Required(AuditTypeOf(state))
  {
    var a, r, p := AuditTypeOf(state), RatedOf(state), ParcelOf(state);
    assert a != Str("Matched") && a != Str("EXCEPTION");
    InsufficientIffMissing(env, a, r, p, state);
    var u := Reason(env, state).value;
    assert u["reasoning_status"] == Str("insufficient") by {
      CheckedStatus(env, a, r, p, state);
    }
  }

  /** `reason_audit`: building the agent raises when its chat client
      cannot be built; otherwise the node returns the update of `reason`,
      whose cause the log slices to 100 characters. A truthy cause that
      cannot be sliced raises there: a dictionary looks the slice up as a
      key and raises `KeyError` (Python 3.12 and later), anything else
      raises `TypeError`. */
  function ReasonNode(env: Env, state: Object): (r: Result<Object>)
    ensures env.reasoningClientInit.Some? ==> r == Raised(env.reasoningClientInit.value)
    ensures r.Ok? ==> r == Reason(env, state)
    ensures env.reasoningClientInit.None? && Reason(env, state).Raised? ==> r == Reason(env, state)
    ensures env.reasoningClientInit.None? && Reason(env, state).Ok? ==>
      var cause := Reason(env, state).value["audit_cause"];
      && (r.Raised? <==> Truthy(cause) && !Sliceable(cause))
      && (r.Raised? ==> r.kind == (if cause.Dict? then "KeyError" else "TypeError"))
  {
    if env.reasoningClientInit.Some? then Raised(env.reasoningClientInit.value)
    else
      var u :- Reason(env, state);
      var cause := u["audit_cause"];
      if Truthy(cause) && !Sliceable(cause) then Raised(if cause.Dict? then "KeyError" else "TypeError")
      else Ok(u)
  }
}
