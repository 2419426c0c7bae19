/** The rule-based audit classifier (AuditClassifierAgent): the category code
    of the rated data, or, when it is missing, one inferred from carrier and
    calculated amounts; normalised against the known categories and tagged
    with a label, a group and a confidence. */
module Classifier {
  import opened Values
  import opened Text
  import opened Oracles

  /** `KNOWN_CATEGORIES`: category code to human label. */
  const KnownCategories: map<string, string> := map[
    "BASE_DISCOUNTS_PERCENTAGE_AUDIT" := "Base Discount Percentage Audit",
    "DISCOUNTS_PERCENTAGE_AUDIT" := "Discount Percentage Audit",
    "EARNED_DISCOUNTS_PERCENTAGE_AUDIT" := "Earned Discount Percentage Audit",
    "BILL_WEIGHT_AUDIT" := "Bill Weight Audit",
    "LIST_RATE_AUDIT" := "List Rate Audit",
    "LIST_RATE_NULL_AUDIT" := "List Rate Null Audit",
    "MWT_LIST_RATE_AUDIT" := "Multi-Weight List Rate Audit",
    "NET_TRANSPORTATION_AUDIT" := "Net Transportation Audit",
    "SURCHARGE_AUDIT" := "Surcharge Audit",
    "SURCHARGE_APPLICABILITY_AUDIT" := "Surcharge Applicability Audit",
    "SURCHARGE_NULL_AUDIT" := "Surcharge Null Audit",
    "FUEL_SURCHARGE_AUDIT" := "Fuel Surcharge Audit",
    "Matched" := "Matched - No Discrepancy",
    "EXCEPTION" := "Exception"]

  /** The keys of `KnownCategories` in declaration order, the order in which
      the case-insensitive lookup visits them. */
  const KnownCategoryOrder: seq<string> := [
    "BASE_DISCOUNTS_PERCENTAGE_AUDIT", "DISCOUNTS_PERCENTAGE_AUDIT",
    "EARNED_DISCOUNTS_PERCENTAGE_AUDIT", "BILL_WEIGHT_AUDIT", "LIST_RATE_AUDIT",
    "LIST_RATE_NULL_AUDIT", "MWT_LIST_RATE_AUDIT", "NET_TRANSPORTATION_AUDIT",
    "SURCHARGE_AUDIT", "SURCHARGE_APPLICABILITY_AUDIT", "SURCHARGE_NULL_AUDIT",
    "FUEL_SURCHARGE_AUDIT", "Matched", "EXCEPTION"]

  /** `CATEGORY_GROUPS`, in declaration order. */
  const CategoryGroups: seq<(string, seq<string>)> := [
    ("DISCOUNT", ["BASE_DISCOUNTS_PERCENTAGE_AUDIT", "DISCOUNTS_PERCENTAGE_AUDIT",
                  "EARNED_DISCOUNTS_PERCENTAGE_AUDIT"]),
    ("WEIGHT", ["BILL_WEIGHT_AUDIT"]),
    ("RATE", ["LIST_RATE_AUDIT", "LIST_RATE_NULL_AUDIT", "MWT_LIST_RATE_AUDIT"]),
    ("TRANSPORTATION", ["NET_TRANSPORTATION_AUDIT"]),
    ("SURCHARGE", ["SURCHARGE_AUDIT", "SURCHARGE_APPLICABILITY_AUDIT", "SURCHARGE_NULL_AUDIT",
                   "FUEL_SURCHARGE_AUDIT"]),
    ("NO_AUDIT", ["Matched"]),
    ("ERROR", ["EXCEPTION"])]

  lemma KnownCategoryOrderListsTheKeys()
    ensures forall k :: k in KnownCategoryOrder <==> k in KnownCategories
  {
  }

  /** The first group of `groups` that lists `category`, or "UNKNOWN". */
  function GroupIn(groups: seq<(string, seq<string>)>, category: string): (r: string)
    ensures r == "UNKNOWN" || exists i :: 0 <= i < |groups| && r == groups[i].0
  {
    if groups == [] then "UNKNOWN"
    else if category in groups[0].1 then groups[0].0
    else GroupIn(groups[1..], category)
  }

  /** `_get_category_group`. */
  function GroupOf(category: string): string {
    GroupIn(CategoryGroups, category)
  }

  /** The groups partition the known categories: every known category is
      listed by exactly one group, and nothing else is listed. */
  lemma CategoryGroupsPartitionKnownCategories()
    ensures forall c :: c in KnownCategories <==>
      exists i :: 0 <= i < |CategoryGroups| && c in CategoryGroups[i].1
    ensures forall i, j, c :: 0 <= i < j < |CategoryGroups| && c in CategoryGroups[i].1 ==>
      c !in CategoryGroups[j].1
  {
    forall c | c in KnownCategories
      ensures exists i :: 0 <= i < |CategoryGroups| && c in CategoryGroups[i].1
    {
      if c in CategoryGroups[0].1 {
      } else if c in CategoryGroups[1].1 {
      } else if c in CategoryGroups[2].1 {
      } else if c in CategoryGroups[3].1 {
      } else if c in CategoryGroups[4].1 {
      } else if c in CategoryGroups[5].1 {
      } else {
        assert c in CategoryGroups[6].1;
      }
    }
  }

  /** No group is called "UNKNOWN". */
  lemma GroupNamesAreNotUnknown()
    ensures forall j :: 0 <= j < |CategoryGroups| ==> CategoryGroups[j].0 != "UNKNOWN"
  {
  }

  /** `GroupIn` answers the first group listing the category. */
  lemma {:induction false} GroupInFirstListing(groups: seq<(string, seq<string>)>, c: string, i: int)
    requires 0 <= i < |groups| && c in groups[i].1
    requires forall j :: 0 <= j < i ==> c !in groups[j].1
    ensures GroupIn(groups, c) == groups[i].0
  {
    if i > 0 {
      GroupInFirstListing(groups[1..], c, i - 1);
    }
  }

  /** `GroupIn` answers "UNKNOWN" for a category no group lists. */
  lemma {:induction false} GroupInUnlisted(groups: seq<(string, seq<string>)>, c: string)
    requires forall j :: 0 <= j < |groups| ==> c !in groups[j].1
    ensures GroupIn(groups, c) == "UNKNOWN"
  {
    if groups != [] {
      GroupInUnlisted(groups[1..], c);
    }
  }

  /** Each known category gets the one group that lists it; every other
      string gets "UNKNOWN". */
  lemma GroupOfSpec(c: string)
    ensures c in KnownCategories ==>
      exists i :: 0 <= i < |CategoryGroups| && c in CategoryGroups[i].1 && GroupOf(c) == CategoryGroups[i].0
    ensures c !in KnownCategories <==> GroupOf(c) == "UNKNOWN"
  {
    var g := CategoryGroups;
    CategoryGroupsPartitionKnownCategories();
    if c in KnownCategories {
      var i :| 0 <= i < |g| && c in g[i].1;
      GroupInFirstListing(g, c, i);
      GroupNamesAreNotUnknown();
    } else {
      GroupInUnlisted(g, c);
    }
  }

  /** The first key of `keys` whose upper-case form is `upper`. */
  function FirstUpperMatch(keys: seq<string>, upper: string): (r: Option<string>)
    ensures r.Some? ==> r.value in keys && Upper(r.value) == upper
    ensures r.None? ==> forall k :: k in keys ==> Upper(k) != upper
  {
    if keys == [] then None
    else if Upper(keys[0]) == upper then Some(keys[0])
    else FirstUpperMatch(keys[1..], upper)
  }

  /** `_normalize_category`: falsy input is "UNKNOWN"; `.strip()` on a
      truthy non-string raises. */
  function NormalizeCategory(category: Value): (r: Result<string>)
    ensures !Truthy(category) ==> r == Ok("UNKNOWN")
    ensures Truthy(category) && !category.Str? ==> r == Raised("AttributeError")
    ensures category.Str? ==> r.Ok?
  {
    if !Truthy(category) then Ok("UNKNOWN")
    else if !category.Str? then Raised("AttributeError")
    else Ok(NormalizeStripped(Strip(category.s)))
  }

  /** What `_normalize_category` makes of the stripped text: a known code as
      is, else the first known code equal to it ignoring case, else the text. */
  function NormalizeStripped(c: string): string {
    if c in KnownCategories then c
    else match FirstUpperMatch(KnownCategoryOrder, Upper(c))
      case Some(k) => k
      case None => c
  }

  /** A non-empty string is stripped and returned as is when it is a known
      code, as a known code equal to it ignoring case when there is one, and
      unchanged otherwise. */
  lemma NormalizeSpec(s: string)
    requires s != []
    ensures var r, c := NormalizeCategory(Str(s)).value, Strip(s);
      && (c in KnownCategories ==> r == c)
      && (c !in KnownCategories && (exists k :: k in KnownCategories && Upper(k) == Upper(c)) ==>
            r in KnownCategories && Upper(r) == Upper(c))
      && ((forall k :: k in KnownCategories ==> Upper(k) != Upper(c)) ==> r == c)
  {
    KnownCategoryOrderListsTheKeys();
    var c := Strip(s);
    if c !in KnownCategories {
      var m := FirstUpperMatch(KnownCategoryOrder, Upper(c));
      assert NormalizeStripped(c) == if m.Some? then m.value else c;
    }
  }

  /** Every known code starts with an upper-case letter other than 'U' and
      ends with a letter. */
  lemma KnownCategoryInitial(k: string)
    requires k in KnownCategories
    ensures k != [] && k[0] in {'B', 'D', 'E', 'F', 'L', 'M', 'N', 'S'}
    ensures k[|k| - 1] in {'d', 'N', 'T'}
  {
  }

  /** "UNKNOWN" is no known code, not even ignoring case. */
  lemma UnknownIsNoKnownCategory()
    ensures "UNKNOWN" !in KnownCategories
    ensures forall k :: k in KnownCategories ==> Upper(k) != Upper("UNKNOWN")
  {
    assert Upper("UNKNOWN")[0] == 'U';
    forall k | k in KnownCategories
      ensures k != "UNKNOWN" && Upper(k) != Upper("UNKNOWN")
    {
      KnownCategoryInitial(k);
      assert Upper(k)[0] == UpperChar(k[0]) == k[0];
    }
  }

  /** A known code is non-empty and carries no surrounding whitespace. */
  lemma KnownCategoryStripped(k: string)
    requires k in KnownCategories
    ensures k != [] && Strip(k) == k
  {
    KnownCategoryInitial(k);
    StripKeepsTrimmed(k);
  }

  /** A text that matches no known code, even ignoring case, is kept. */
  lemma NormalizeStrippedUnmatched(c: string)
    requires c !in KnownCategories
    requires forall k :: k in KnownCategories ==> Upper(k) != Upper(c)
    ensures NormalizeStripped(c) == c
  {
    KnownCategoryOrderListsTheKeys();
  }

  /** Falsy input normalises to "UNKNOWN", which normalises to itself. */
  lemma NormalizeFalsyFixed(category: Value)
    requires !Truthy(category)
    ensures var u := NormalizeCategory(category).value; NormalizeCategory(Str(u)) == Ok(u)
  {
    var u := NormalizeCategory(category).value;
    StripKeepsTrimmed(u);
    UnknownIsNoKnownCategory();
    NormalizeStrippedUnmatched(u);
  }

  /** A known code normalises to itself. */
  lemma NormalizeKnownFixed(k: string)
    requires k in KnownCategories
    ensures NormalizeCategory(Str(k)) == Ok(k)
  {
    KnownCategoryStripped(k);
    assert NormalizeStripped(k) == k;
  }

  /** Normalising a normalised category changes nothing, except that the
      empty string (what whitespace-only input normalises to) becomes
      "UNKNOWN". */
  lemma NormalizeIdempotent(category: Value)
    requires NormalizeCategory(category).Ok?
    ensures var c := NormalizeCategory(category).value;
      NormalizeCategory(Str(c)) == if c == "" then Ok("UNKNOWN") else Ok(c)
  {
    var c := NormalizeCategory(category).value;
    if !Truthy(category) {
      NormalizeFalsyFixed(category);
    } else if c in KnownCategories {
      NormalizeKnownFixed(c);
    } else if c != "" {
      NormalizeUnmatchedFixed(category.s);
    }
  }

  /** A string input that normalises to an unknown code was kept as its
      stripped text, which normalises to itself. */
  lemma NormalizeUnmatchedFixed(s: string)
    requires s != []
    requires var c := NormalizeCategory(Str(s)).value; c != [] && c !in KnownCategories
    ensures var c := NormalizeCategory(Str(s)).value; NormalizeCategory(Str(c)) == Ok(c)
  {
    var c := NormalizeCategory(Str(s)).value;
    NormalizeSpec(s);
    assert c == Strip(s);
    StripIdempotent(s);
    NormalizeStrippedUnmatched(c);
  }

  /** Non-empty whitespace-only input strips to "", which matches no known
      code and is kept. */
  lemma NormalizeWhitespaceOnly(s: string)
    requires s != [] && forall i :: 0 <= i < |s| ==> IsSpace(s[i])
    ensures NormalizeCategory(Str(s)) == Ok("")
  {
    StripEmptyIff(s);
    var c := Strip(s);
    forall k | k in KnownCategories ensures k != c && Upper(k) != Upper(c) {
      KnownCategoryInitial(k);
    }
    NormalizeStrippedUnmatched(c);
    assert NormalizeCategory(Str(s)) == Ok(c);
  }

  /** Python's `float(v)`: numbers and booleans convert; a string converts
      when it parses and raises `ValueError` otherwise; None and containers
      raise `TypeError`. */
  function ToFloat(parseFloat: string -> Option<real>, v: Value): (r: Result<real>)
    ensures v.Int? ==> r == Ok(v.i as real)
    ensures v.Bool? ==> r == Ok(if v.b then 1.0 else 0.0)
    ensures r.Raised? <==> v.Null? || v.List? || v.Dict? || (v.Str? && parseFloat(v.s).None?)
    ensures r.Raised? ==> (r.kind == "ValueError" <==> v.Str?)
  {
    match v
    case Int(i) => Ok(i as real)
    case Float(x) => Ok(x)
    case Bool(b) => Ok(if b then 1.0 else 0.0)
    case Str(s) => if parseFloat(s).Some? then Ok(parseFloat(s).value) else Raised("ValueError")
    case _ => Raised("TypeError")
  }

  /** `rated_data.get(key, 0) or 0`: absent, None and falsy values read as 0. */
  function Amount(d: Object, key: string): (v: Value)
    ensures Truthy(v) <==> key in d && Truthy(d[key])
    ensures key !in d || d[key] == Null ==> v == Int(0)
  {
    Or(GetOr(d, key, Int(0)), Int(0))
  }

  /** The amounts `_infer_category` compares, carrier against calculated. */
  datatype Component =
    | BillWeight | ListRate | TotalDiscount | BaseDiscount | EarnedDiscount
    | TotalSurcharges | FuelAmount | NetTransportationCharge | TotalNetCharge

  /** The rated-data field holding the carrier's amount. */
  function CarrierField(c: Component): string {
    match c
    case BillWeight => "carrierBillWeight"
    case ListRate => "carrierListRate"
    case TotalDiscount => "carrierTotalDiscountPercentage"
    case BaseDiscount => "carrierBaseDiscountEffectivePercentage"
    case EarnedDiscount => "carrierEarnedDiscountEffectivePercentage"
    case TotalSurcharges => "carrierTotalSurcharges"
    case FuelAmount => "carrierTransportationFuelAmount"
    case NetTransportationCharge => "carrierNetTransportationCharge"
    case TotalNetCharge => "carrierTotalNetCharge"
  }

  /** The rated-data field holding the calculated amount. */
  function CalculatedField(c: Component): string {
    match c
    case BillWeight => "calcBillWeight"
    case ListRate => "calcListRate"
    case TotalDiscount => "calcTotalDiscountPercentage"
    case BaseDiscount => "calcBaseDiscountEffectivePercentage"
    case EarnedDiscount => "calcEarnedDiscountEffectivePercentage"
    case TotalSurcharges => "calcTotalSurcharges"
    case FuelAmount => "calcTransportationFuelAmount"
    case NetTransportationCharge => "calcNetTransportationCharge"
    case TotalNetCharge => "calcTotalNetCharge"
  }

  /** `float(carrier) != float(calculated)` for one component; the carrier
      amount is converted first, so its exception wins. */
  function AmountsDiffer(parseFloat: string -> Option<real>, d: Object, c: Component): (r: Result<bool>)
    ensures ToFloat(parseFloat, Amount(d, CarrierField(c))).Raised? ==>
      r == Raised(ToFloat(parseFloat, Amount(d, CarrierField(c))).kind)
    ensures r.Ok? <==> (ToFloat(parseFloat, Amount(d, CarrierField(c))).Ok?
                        && ToFloat(parseFloat, Amount(d, CalculatedField(c))).Ok?)
    ensures r.Ok? ==> (r.value <==> ToFloat(parseFloat, Amount(d, CarrierField(c))).value
                                    != ToFloat(parseFloat, Amount(d, CalculatedField(c))).value)
  {
    var a :- ToFloat(parseFloat, Amount(d, CarrierField(c)));
    var b :- ToFloat(parseFloat, Amount(d, CalculatedField(c)));
    Ok(a != b)
  }

  /** What `_infer_category` reads from a non-empty rated-data dictionary:
      the outcome of comparing each component (whether the amounts differ,
      or the exception converting them raised), whether each list rate is
      set, and whether `overRated` is set. */
  datatype Readings = Readings(
    differ: Component -> Result<bool>,
    carrierListRate: bool,
    calcListRate: bool,
    overRated: bool)

  function ReadingsOf(parseFloat: string -> Option<real>, d: Object): Readings {
    Readings(
      c => AmountsDiffer(parseFloat, d, c),
      Truthy(Amount(d, "carrierListRate")),
      Truthy(Amount(d, "calcListRate")),
      Truthy(Get(d, "overRated")))
  }

  /** The component's amounts convert and differ. */
  predicate Differs(r: Readings, c: Component) {
    r.differ(c) == Ok(true)
  }

  /** The component's amounts convert and are equal. */
  predicate Agrees(r: Readings, c: Component) {
    r.differ(c) == Ok(false)
  }

  /** The outcomes of `_infer_category`, one per category code it returns. */
  datatype Finding =
    | BillWeightAudit | ListRateAudit | ListRateNullAudit
    | BaseDiscountsAudit | EarnedDiscountsAudit | DiscountsAudit
    | FuelSurchargeAudit | SurchargeAudit | NetTransportationAudit
    | NoDiscrepancy | RatingException | Undetermined

  /** The category code of a finding. */
  function Code(f: Finding): string {
    match f
    case BillWeightAudit => "BILL_WEIGHT_AUDIT"
    case ListRateAudit => "LIST_RATE_AUDIT"
    case ListRateNullAudit => "LIST_RATE_NULL_AUDIT"
    case BaseDiscountsAudit => "BASE_DISCOUNTS_PERCENTAGE_AUDIT"
    case EarnedDiscountsAudit => "EARNED_DISCOUNTS_PERCENTAGE_AUDIT"
    case DiscountsAudit => "DISCOUNTS_PERCENTAGE_AUDIT"
    case FuelSurchargeAudit => "FUEL_SURCHARGE_AUDIT"
    case SurchargeAudit => "SURCHARGE_AUDIT"
    case NetTransportationAudit => "NET_TRANSPORTATION_AUDIT"
    case NoDiscrepancy => "Matched"
    case RatingException => "EXCEPTION"
    case Undetermined => "UNKNOWN"
  }

  /** Every finding but `Undetermined` names a known category. */
  lemma CodesAreKnown(f: Finding)
    ensures f != Undetermined <==> Code(f) in KnownCategories
  {
  }

  /** `_infer_category` on a non-empty dictionary: weight, list rate,
      discount, surcharge, net transportation, then net charge. */
  function Decide(r: Readings): Result<Finding> {
    var weight :- r.differ(BillWeight);
    if weight then Ok(BillWeightAudit) else
    var listRate :-
      if r.carrierListRate && r.calcListRate then
        var differ :- r.differ(ListRate);
        Ok(if differ then Some(ListRateAudit) else None)
      else if r.carrierListRate then Ok(Some(ListRateNullAudit))
      else Ok(None);
    if listRate.Some? then Ok(listRate.value) else
    var discount :- r.differ(TotalDiscount);
    if discount then
      var base :- r.differ(BaseDiscount);
      if base then Ok(BaseDiscountsAudit) else
      var earned :- r.differ(EarnedDiscount);
      Ok(if earned then EarnedDiscountsAudit else DiscountsAudit)
    else
    var surcharge :- r.differ(TotalSurcharges);
    if surcharge then
      var fuel :- r.differ(FuelAmount);
      Ok(if fuel then FuelSurchargeAudit else SurchargeAudit)
    else
    var netTransportation :- r.differ(NetTransportationCharge);
    if netTransportation then Ok(NetTransportationAudit) else
    var net :- r.differ(TotalNetCharge);
    if !net then Ok(NoDiscrepancy)
    else if r.overRated then Ok(RatingException)
    else Ok(Undetermined)
  }

  /** The finding `_infer_category` reaches: falsy rated data (None, `{}`)
      is undetermined; `.get` on truthy non-dictionary data raises. */
  function Infer(parseFloat: string -> Option<real>, rated: Value): (r: Result<Finding>)
    ensures !Truthy(rated) ==> r == Ok(Undetermined)
    ensures Truthy(rated) && !rated.Dict? ==> r == Raised("AttributeError")
    ensures Truthy(rated) && rated.Dict? ==> r == Decide(ReadingsOf(parseFloat, rated.entries))
  {
    if !Truthy(rated) then Ok(Undetermined)
    else if !rated.Dict? then Raised("AttributeError")
    else Decide(ReadingsOf(parseFloat, rated.entries))
  }

  /** `_infer_category`: always a known code or "UNKNOWN". */
  function InferCategory(parseFloat: string -> Option<real>, rated: Value): (r: Result<string>)
    ensures r.Ok? ==> r.value in KnownCategories || r.value == "UNKNOWN"
    ensures !Truthy(rated) ==> r == Ok("UNKNOWN")
    ensures Truthy(rated) && !rated.Dict? ==> r == Raised("AttributeError")
  {
    var f :- Infer(parseFloat, rated);
    CodesAreKnown(f);
    Ok(Code(f))
  }

  /** The list-rate check did not decide: both rates set and equal, or no
      carrier list rate. */
  predicate ListRateQuiet(r: Readings) {
    (r.carrierListRate && r.calcListRate && Agrees(r, ListRate)) || !r.carrierListRate
  }

  /** The weight and list-rate checks found nothing. */
  predicate QuietBeforeDiscount(r: Readings) {
    Agrees(r, BillWeight) && ListRateQuiet(r)
  }

  /** ... and neither did the discount check. */
  predicate QuietBeforeSurcharge(r: Readings) {
    QuietBeforeDiscount(r) && Agrees(r, TotalDiscount)
  }

  /** ... nor the surcharge and net-transportation checks. */
  predicate QuietBeforeNetCharge(r: Readings) {
    QuietBeforeSurcharge(r) && Agrees(r, TotalSurcharges) && Agrees(r, NetTransportationCharge)
  }

  /** Inference checks the bill weight first, then the list rate: both rates
      set and different, or only the carrier's set. */
  lemma DecideWeightAndListRate(r: Readings)
    ensures Decide(r) == Ok(BillWeightAudit) <==> Differs(r, BillWeight)
    ensures Decide(r) == Ok(ListRateAudit) <==>
      Agrees(r, BillWeight) && r.carrierListRate && r.calcListRate && Differs(r, ListRate)
    ensures Decide(r) == Ok(ListRateNullAudit) <==>
      Agrees(r, BillWeight) && r.carrierListRate && !r.calcListRate
  {
  }

  /** With weight and list rate quiet, a differing total discount selects the
      base, then the earned, then the generic discount audit. */
  lemma DecideDiscount(r: Readings)
    ensures Decide(r) == Ok(BaseDiscountsAudit) <==>
      QuietBeforeDiscount(r) && Differs(r, TotalDiscount) && Differs(r, BaseDiscount)
    ensures Decide(r) == Ok(EarnedDiscountsAudit) <==>
      QuietBeforeDiscount(r) && Differs(r, TotalDiscount) && Agrees(r, BaseDiscount) && Differs(r, EarnedDiscount)
    ensures Decide(r) == Ok(DiscountsAudit) <==>
      QuietBeforeDiscount(r) && Differs(r, TotalDiscount) && Agrees(r, BaseDiscount) && Agrees(r, EarnedDiscount)
  {
  }

  /** With the discounts agreeing, a differing surcharge total selects the
      fuel or the generic surcharge audit; then come net transportation
      charges. */
  lemma DecideSurcharge(r: Readings)
    ensures Decide(r) == Ok(FuelSurchargeAudit) <==>
      QuietBeforeSurcharge(r) && Differs(r, TotalSurcharges) && Differs(r, FuelAmount)
    ensures Decide(r) == Ok(SurchargeAudit) <==>
      QuietBeforeSurcharge(r) && Differs(r, TotalSurcharges) && Agrees(r, FuelAmount)
    ensures Decide(r) == Ok(NetTransportationAudit) <==>
      QuietBeforeSurcharge(r) && Agrees(r, TotalSurcharges) && Differs(r, NetTransportationCharge)
  {
  }

  /** When every component agrees, equal net charges are "Matched"; different
      ones are "EXCEPTION" when `overRated` is set and "UNKNOWN" otherwise. */
  lemma DecideNetCharge(r: Readings)
    ensures Decide(r) == Ok(NoDiscrepancy) <==> QuietBeforeNetCharge(r) && Agrees(r, TotalNetCharge)
    ensures Decide(r) == Ok(RatingException) <==>
      QuietBeforeNetCharge(r) && Differs(r, TotalNetCharge) && r.overRated
    ensures Decide(r) == Ok(Undetermined) <==>
      QuietBeforeNetCharge(r) && Differs(r, TotalNetCharge) && !r.overRated
  {
  }

  /** Inference raises only the exception of a comparison it made, and
      cannot raise when every comparison converts. */
  lemma DecideRaisesOnlyFromComparisons(r: Readings)
    ensures Decide(r).Raised? ==> exists c :: r.differ(c) == Raised(Decide(r).kind)
    ensures (forall c :: r.differ(c).Ok?) ==> Decide(r).Ok?
  {
  }

  /** The pre-normalisation category: the rated data's truthy `category`,
      otherwise the inferred one. */
  function ChosenCategory(env: Env, rated: Value): Result<Value> {
    var category := if rated.Dict? then Get(rated.entries, "category") else Null;
    if Truthy(category) then Ok(category)
    else
      var inferred :- InferCategory(env.parseFloat, rated);
      Ok(Str(inferred))
  }

  /** `classify`: the node update with the audit type, its label, its group
      and the confidence. */
  function Classify(env: Env, state: Object): (r: Result<Object>)
    ensures r.Ok? ==> r.value.Keys == {"audit_type", "audit_category", "audit_group", "classification_confidence"}
  {
    var rated := GetOr(state, "rated_data", Dict(map[]));
    var category :- ChosenCategory(env, rated);
    var normalized :- NormalizeCategory(category);
    Ok(ClassifyUpdate(env.render, category, normalized))
  }

  /** The update `classify` builds from the chosen category and its
      normalised code. */
  function ClassifyUpdate(render: Value -> string, category: Value, normalized: string): Object {
    var known := normalized in KnownCategories;
    map[
      "audit_type" := Str(normalized),
      "audit_category" := Str(if known then KnownCategories[normalized] else "Unknown: " + PyStr(render, category)),
      "audit_group" := Str(GroupOf(normalized)),
      "classification_confidence" := Float(if known then 1.0 else 0.5)]
  }

  /** The update of a category that normalises: its type is the code, its
      confidence and group tell known codes from unknown ones, and an
      unknown code is labelled with the category's own text. */
  lemma ClassifyUpdateSpec(render: Value -> string, category: Value, t: string)
    requires Truthy(category) || category.Str?
    requires NormalizeCategory(category) == Ok(t)
    ensures var u := ClassifyUpdate(render, category, t);
      && u["audit_type"] == Str(t)
      && (u["classification_confidence"] == Float(1.0) <==> t in KnownCategories)
      && (u["classification_confidence"] == Float(0.5) <==> t !in KnownCategories)
      && (t in KnownCategories ==> u["audit_category"] == Str(KnownCategories[t]))
      && (t !in KnownCategories ==> category.Str? && u["audit_category"] == Str("Unknown: " + category.s))
      && (u["audit_group"] == Str("UNKNOWN") <==> t !in KnownCategories)
  {
    GroupOfSpec(t);
  }

  /** What a successful classification says: the type is the normalised
      chosen category; the confidence is 1.0 exactly for known codes and 0.5
      otherwise; the label is the known label, else "Unknown: " followed by
      the category before normalisation; the group is "UNKNOWN" exactly for
      unknown codes. */
  lemma ClassifySpec(env: Env, state: Object)
    requires Classify(env, state).Ok?
    ensures var u, rated := Classify(env, state).value, GetOr(state, "rated_data", Dict(map[]));
      var category := ChosenCategory(env, rated).value;
      var t := NormalizeCategory(category).value;
      && u["audit_type"] == Str(t)
      && (u["classification_confidence"] == Float(1.0) <==> t in KnownCategories)
      && (u["classification_confidence"] == Float(0.5) <==> t !in KnownCategories)
      && (t in KnownCategories ==> u["audit_category"] == Str(KnownCategories[t]))
      && (t !in KnownCategories ==> category.Str? && u["audit_category"] == Str("Unknown: " + category.s))
      && (u["audit_group"] == Str("UNKNOWN") <==> t !in KnownCategories)
  {
    var rated := GetOr(state, "rated_data", Dict(map[]));
    var category := ChosenCategory(env, rated).value;
    var t := NormalizeCategory(category).value;
    assert Classify(env, state).value == ClassifyUpdate(env.render, category, t);
    ClassifyUpdateSpec(env.render, category, t);
  }

  /** The category comes from the rated data when its `category` is truthy,
      and from inference otherwise. */
  lemma CategorySource(env: Env, state: Object)
    ensures var rated := GetOr(state, "rated_data", Dict(map[]));
      var category := if rated.Dict? then Get(rated.entries, "category") else Null;
      && (Truthy(category) ==> ChosenCategory(env, rated) == Ok(category))
      && (!Truthy(category) && InferCategory(env.parseFloat, rated).Ok? ==>
            ChosenCategory(env, rated) == Ok(Str(InferCategory(env.parseFloat, rated).value)))
  {
  }

  /** Classification reads nothing of the state but `rated_data`. */
  lemma ClassifyReadsOnlyRatedData(env: Env, s: Object, t: Object)
    requires GetOr(s, "rated_data", Dict(map[])) == GetOr(t, "rated_data", Dict(map[]))
    ensures Classify(env, s) == Classify(env, t)
  {
  }
}
