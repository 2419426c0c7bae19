/** The summary agent: a language-model summary, falling back to the
    rule-based one when the model path raises, and the bullet points read
    back out of whichever text was produced. */
module Summary {
  import opened Values
  import opened Text
  import opened Oracles
  import Classifier

  /** The bullet glyph as the source file spells it: the three characters
      that UTF-8 bytes of U+2022 become when read as Windows-1252. */
  const BulletGlyph: string := "\U{00E2}\U{20AC}\U{00A2}"

  /** The characters `lstrip` removes from a kept line: those of the glyph,
      the dash, the asterisk and the space. */
  const BulletStrip: set<char> := {'\U{00E2}', '\U{20AC}', '\U{00A2}', '-', '*', ' '}

  /** A line is kept when, stripped, it starts with the glyph, a dash or an
      asterisk. */
  predicate IsBulletLine(line: string) {
    var t := Strip(line);
    StartsWith(t, BulletGlyph) || StartsWith(t, "-") || StartsWith(t, "*")
  }

  /** What a kept line contributes: the stripped line with every leading
      character of the strip set removed. */
  function Bullet(line: string): (b: string)
    ensures b == [] || b[0] !in BulletStrip
  {
    LStripChars(Strip(line), BulletStrip)
  }

  /** The images under `f` of the elements satisfying `keep`, in order. */
  function FilterMap<T, U>(xs: seq<T>, keep: T -> bool, f: T -> U): (ys: seq<U>)
    ensures |ys| <= |xs|
  {
    if xs == [] then []
    else (if keep(xs[0]) then [f(xs[0])] else []) + FilterMap(xs[1..], keep, f)
  }

  /** Every index shifted by one, for the elements after the first. */
  function Shifted(ix: seq<nat>): (r: seq<nat>)
    ensures |r| == |ix| && forall j :: 0 <= j < |ix| ==> r[j] == ix[j] + 1
  {
    seq(|ix|, j requires 0 <= j < |ix| => ix[j] + 1)
  }

  /** The positions of the kept elements, in increasing order. */
  function KeptIndices<T>(xs: seq<T>, keep: T -> bool): (ix: seq<nat>)
    ensures forall j :: 0 <= j < |ix| ==> ix[j] < |xs| && keep(xs[ix[j]])
  {
    if xs == [] then []
    else
      var rest := KeptIndices(xs[1..], keep);
      assert forall j :: 0 <= j < |rest| ==> xs[rest[j] + 1] == xs[1..][rest[j]];
      (if keep(xs[0]) then [0] else []) + Shifted(rest)
  }

  /** The j-th output is the image of the element at the j-th kept position. */
  lemma {:induction false} FilterMapIndexed<T, U>(xs: seq<T>, keep: T -> bool, f: T -> U)
    ensures var ys, ix := FilterMap(xs, keep, f), KeptIndices(xs, keep);
      |ix| == |ys| && forall j :: 0 <= j < |ix| ==> ys[j] == f(xs[ix[j]])
  {
    if xs != [] {
      var tail := xs[1..];
      FilterMapIndexed(tail, keep, f);
      var tix, tys := KeptIndices(tail, keep), FilterMap(tail, keep, f);
      var ix, ys := KeptIndices(xs, keep), FilterMap(xs, keep, f);
      var d := if keep(xs[0]) then 1 else 0;
      assert ix[d..] == Shifted(tix) && ys[d..] == tys;
      forall j | d <= j < |ix|
        ensures ys[j] == f(xs[ix[j]])
      {
        assert ix[j] == tix[j - d] + 1;
        assert xs[ix[j]] == tail[tix[j - d]];
      }
    }
  }

  /** The kept positions increase strictly: the output keeps input order. */
  lemma {:induction false} KeptIndicesIncrease<T>(xs: seq<T>, keep: T -> bool)
    ensures forall j :: 0 < j < |KeptIndices(xs, keep)| ==> KeptIndices(xs, keep)[j - 1] < KeptIndices(xs, keep)[j]
  {
    if xs != [] {
      var tix := KeptIndices(xs[1..], keep);
      KeptIndicesIncrease(xs[1..], keep);
      var ix := KeptIndices(xs, keep);
      var d := if keep(xs[0]) then 1 else 0;
      var sh := Shifted(tix);
      assert ix == (if d == 1 then [0] else []) + sh;
      forall j | 0 < j < |ix|
        ensures ix[j - 1] < ix[j]
      {
        assert ix[j] == sh[j - d] == tix[j - d] + 1;
        if j - 1 >= d {
          assert ix[j - 1] == sh[j - 1 - d] == tix[j - 1 - d] + 1;
          assert tix[j - d - 1] < tix[j - d];
        } else {
          assert ix[j - 1] == 0;
        }
      }
    }
  }

  /** No kept element is skipped. */
  lemma {:induction false} KeptIndicesComplete<T>(xs: seq<T>, keep: T -> bool)
    ensures forall i :: 0 <= i < |xs| && keep(xs[i]) ==> i in KeptIndices(xs, keep)
  {
    if xs != [] {
      var tail := xs[1..];
      KeptIndicesComplete(tail, keep);
      var ix, sh := KeptIndices(xs, keep), Shifted(KeptIndices(tail, keep));
      assert forall k :: k in sh ==> k in ix;
      forall i | 0 < i < |xs| && keep(xs[i])
        ensures i in ix
      {
        assert tail[i - 1] == xs[i];
        var j :| 0 <= j < |KeptIndices(tail, keep)| && KeptIndices(tail, keep)[j] == i - 1;
        assert sh[j] == i;
      }
    }
  }

  /** Filtering two runs is filtering each, in order. */
  lemma {:induction false} FilterMapConcat<T, U>(a: seq<T>, b: seq<T>, keep: T -> bool, f: T -> U)
    ensures FilterMap(a + b, keep, f) == FilterMap(a, keep, f) + FilterMap(b, keep, f)
  {
    if a == [] {
      assert a + b == b;
    } else {
      var head := if keep(a[0]) then [f(a[0])] else [];
      assert (a + b)[0] == a[0];
      assert (a + b)[1..] == a[1..] + b;
      FilterMapConcat(a[1..], b, keep, f);
      assert FilterMap(a + b, keep, f) == head + (FilterMap(a[1..], keep, f) + FilterMap(b, keep, f));
    }
  }

  /** `_extract_bullets`: the bullets of the summary's lines, in order. */
  function ExtractBullets(summary: string): (bs: seq<string>)
    ensures |bs| <= |Split(summary, '\n')|
  {
    FilterMap(Split(summary, '\n'), IsBulletLine, Bullet)
  }

  /** `ys` holds the images under `f` of exactly the elements of `xs` that
      satisfy `keep`, in order, taken at the positions `ix`. */
  predicate ExactlyKept<T, U(==)>(xs: seq<T>, keep: T -> bool, f: T -> U, ys: seq<U>, ix: seq<nat>) {
    && |ix| == |ys|
    && (forall j :: 0 <= j < |ix| ==> ix[j] < |xs| && keep(xs[ix[j]]) && ys[j] == f(xs[ix[j]]))
    && (forall j :: 0 < j < |ix| ==> ix[j - 1] < ix[j])
    && (forall i :: 0 <= i < |xs| && keep(xs[i]) ==> i in ix)
  }

  /** The outputs of a filter-map are exactly the images of the kept
      elements, in order. */
  lemma FilterMapExactly<T, U>(xs: seq<T>, keep: T -> bool, f: T -> U)
    ensures ExactlyKept(xs, keep, f, FilterMap(xs, keep, f), KeptIndices(xs, keep))
  {
    FilterMapIndexed(xs, keep, f);
    KeptIndicesIncrease(xs, keep);
    KeptIndicesComplete(xs, keep);
  }

  /** The bullets are exactly those of the bullet lines, in order: the
      j-th bullet comes from the j-th bullet line, the positions increase,
      and no bullet line is skipped. */
  lemma ExtractBulletsExactly(summary: string)
    ensures ExactlyKept(Split(summary, '\n'), IsBulletLine, Bullet, ExtractBullets(summary),
                        KeptIndices(Split(summary, '\n'), IsBulletLine))
  {
    FilterMapExactly(Split(summary, '\n'), IsBulletLine, Bullet);
  }

  /** Every output satisfies a property every image of a kept element has. */
  lemma {:induction false} FilterMapAll<T, U>(xs: seq<T>, keep: T -> bool, f: T -> U, p: U -> bool)
    requires forall x :: keep(x) ==> p(f(x))
    ensures forall y :: y in FilterMap(xs, keep, f) ==> p(y)
  {
    if xs != [] {
      FilterMapAll(xs[1..], keep, f, p);
    }
  }

  /** No bullet starts with a character of the strip set. */
  lemma BulletsStartClean(summary: string)
    ensures forall b :: b in ExtractBullets(summary) ==> b == [] || b[0] !in BulletStrip
  {
    FilterMapAll(Split(summary, '\n'), IsBulletLine, Bullet, b => b == [] || b[0] !in BulletStrip);
  }

  /** Bullets are read line by line: two texts joined by a line break give
      the bullets of the first followed by those of the second. */
  lemma ExtractBulletsConcat(a: string, b: string)
    ensures ExtractBullets(a + "\n" + b) == ExtractBullets(a) + ExtractBullets(b)
  {
    SplitConcat(a, b, '\n');
    FilterMapConcat(Split(a, '\n'), Split(b, '\n'), IsBulletLine, Bullet);
  }

  /** A bold heading counts as a bullet line, and only its leading
      asterisks go: the strip works on characters, not on a prefix, so the
      closing asterisks inside the heading stay. */
  lemma BoldHeadingIsBullet(h: string)
    requires h != [] && h[0] !in BulletStrip && !IsSpace(h[|h| - 1])
    ensures IsBulletLine("**" + h)
    ensures Bullet("**" + h) == h
  {
    var line := "**" + h;
    assert line[0] == '*' && line[|line| - 1] == h[|h| - 1];
    StripKeepsTrimmed(line);
    assert line[..1] == "*";
    assert line[1..][1..] == h;
    assert LStripChars(h, BulletStrip) == h;
    assert LStripChars(line[1..], BulletStrip) == h;
  }

  /** The rated-data fields the summary call is shown. */
  const SummaryFields: set<string> := {
    "trackingNumber", "invoiceNumber", "category",
    "carrierBillWeight", "calcBillWeight", "actualWeight",
    "carrierZone", "calcZone",
    "carrierOriginalService", "calcOriginalService",
    "carrierTotalNetCharge", "calcTotalNetCharge",
    "carrierTotalDiscountPercentage", "calcTotalDiscountPercentage",
    "carrierTotalSurcharges", "calcTotalSurcharges",
    "overRated", "message"}

  /** `_get_summary_data`: the listed fields the rated data holds with a
      value other than None, with that value. */
  function SummaryData(rated: Object): (d: Object)
    ensures forall k :: k in d <==> k in SummaryFields && GetOr(rated, k, Null) != Null
    ensures forall k :: k in d ==> k in rated && d[k] == rated[k]
  {
    map k | k in SummaryFields && k in rated && rated[k] != Null :: rated[k]
  }

  /** Projecting twice is projecting once, and a projection only drops. */
  lemma SummaryDataIdempotent(rated: Object)
    ensures SummaryData(SummaryData(rated)) == SummaryData(rated)
    ensures SummaryData(rated).Keys <= rated.Keys
  {
    var d := SummaryData(rated);
    assert SummaryData(d).Keys == d.Keys;
  }

  /** `rated_data` or `parcel_characteristics` of the state, `{}` when absent
      or falsy. */
  function DataOr(state: Object, key: string): Value {
    Or(GetOr(state, key, Dict(map[])), Dict(map[]))
  }

  /** The audit type the summary reads, `"UNKNOWN"` when absent. */
  function SummaryAuditType(state: Object): Value {
    GetOr(state, "audit_type", Str("UNKNOWN"))
  }

  /** What the summary model is asked, for rated data that is a dict. */
  function SummaryRequestFor(state: Object, rated: Object, parcel: Value): (q: SummaryRequest)
    ensures q.prompt.BillWeightSummaryPrompt? <==> SummaryAuditType(state) == Str("BILL_WEIGHT_AUDIT")
    ensures q.auditType == SummaryAuditType(state) && q.ratedData == SummaryData(rated)
  {
    SummaryRequest(
      if SummaryAuditType(state) == Str("BILL_WEIGHT_AUDIT") then BillWeightSummaryPrompt else GeneralSummaryPrompt,
      SummaryAuditType(state),
      GetOr(state, "error_case", Str("Unknown Case")),
      GetOr(state, "audit_cause", Str("")),
      GetOr(state, "reasoning_result", Str("")),
      SummaryData(rated),
      parcel)
  }

  /** `_generate_llm_summary`: reading the summary fields needs a dict;
      otherwise the model's reply, or what it raised. */
  function LlmSummary(env: Env, state: Object, rated: Value, parcel: Value): (r: Result<string>)
    ensures !rated.Dict? ==> r == Raised("AttributeError")
    ensures rated.Dict? ==> match env.summaryModel(SummaryRequestFor(state, rated.entries, parcel))
      case Returned(t) => r == Ok(t)
      case Threw(k, _) => r == Raised(k)
  {
    if !rated.Dict? then Raised("AttributeError")
    else
      match env.summaryModel(SummaryRequestFor(state, rated.entries, parcel))
      case Returned(t) => Ok(t)
      case Threw(k, _) => Raised(k)
  }

  /** A net charge as the fallback reads it: `0` when absent or falsy. */
  function NetCharge(rated: Object, key: string): Value {
    Or(GetOr(rated, key, Int(0)), Int(0))
  }

  /** Audit types whose fallback summary reads the postal codes. */
  const ZoneTypes: set<Value> := {Str("ZONE"), Str("ZONE_MISMATCH")}

  /** `_generate_rule_based_summary`, as far as it can raise: the rated data
      must be a dict, both net charges must convert with `float()`, and for
      a zone audit the parcel characteristics must be a dict. The text
      itself is given. */
  function RuleBasedSummary(env: Env, state: Object, rated: Value, parcel: Value): (r: Result<string>)
    ensures r.Ok? <==>
      && rated.Dict?
      && Classifier.ToFloat(env.parseFloat, NetCharge(rated.entries, "carrierTotalNetCharge")).Ok?
      && Classifier.ToFloat(env.parseFloat, NetCharge(rated.entries, "calcTotalNetCharge")).Ok?
      && (SummaryAuditType(state) in ZoneTypes ==> parcel.Dict?)
    ensures r.Ok? ==> r.value == env.ruleBasedSummary(state)
  {
    if !rated.Dict? then Raised("AttributeError")
    else
      var _ :- Classifier.ToFloat(env.parseFloat, NetCharge(rated.entries, "carrierTotalNetCharge"));
      var _ :- Classifier.ToFloat(env.parseFloat, NetCharge(rated.entries, "calcTotalNetCharge"));
      if SummaryAuditType(state) in ZoneTypes && !parcel.Dict? then Raised("AttributeError")
      else Ok(env.ruleBasedSummary(state))
  }

  /** The `try`/`except` of `summarize`: the model's summary when that
      path returns, the rule-based one when anything on it raised. */
  function ChosenSummary(env: Env, state: Object): (r: Result<string>)
    ensures var rated, parcel := DataOr(state, "rated_data"), DataOr(state, "parcel_characteristics");
      var llm, rule := LlmSummary(env, state, rated, parcel), RuleBasedSummary(env, state, rated, parcel);
      && (r.Ok? <==> llm.Ok? || rule.Ok?)
      && (llm.Ok? ==> r == llm)
      && (llm.Raised? ==> r == rule)
  {
    var rated, parcel := DataOr(state, "rated_data"), DataOr(state, "parcel_characteristics");
    match LlmSummary(env, state, rated, parcel)
    case Ok(t) => Ok(t)
    case Raised(_) => RuleBasedSummary(env, state, rated, parcel)
  }

  /** The update `summarize` returns: the summary text and its bullets. */
  function SummaryUpdate(summary: string, bullets: seq<string>): (u: Object)
    ensures u.Keys == {"audit_summary", "summary_bullets"}
    ensures u["audit_summary"] == Str(summary)
    ensures u["summary_bullets"].List? && |u["summary_bullets"].items| == |bullets|
      && forall j :: 0 <= j < |bullets| ==> u["summary_bullets"].items[j] == Str(bullets[j])
  {
    map["audit_summary" := Str(summary), "summary_bullets" := StrList(bullets)]
  }

  /** `summarize`: the chosen text and its bullets. */
  function Summarize(env: Env, state: Object): (r: Result<Object>)
    ensures r.Ok? <==> ChosenSummary(env, state).Ok?
    ensures r.Ok? ==> r.value == SummaryUpdate(ChosenSummary(env, state).value, ExtractBullets(ChosenSummary(env, state).value))
  {
    var summary :- ChosenSummary(env, state);
    Ok(SummaryUpdate(summary, ExtractBullets(summary)))
  }

  /** A state whose rated data is a dict with convertible net charges, and
      whose parcel characteristics are a dict, always gets a summary,
      whatever the model does. */
  lemma WellTypedStateGetsSummary(env: Env, state: Object)
    requires DictLike(GetOr(state, "rated_data", Dict(map[])))
    requires DictLike(GetOr(state, "parcel_characteristics", Dict(map[])))
    requires var rated := AsDict(GetOr(state, "rated_data", Dict(map[])));
      && Classifier.ToFloat(env.parseFloat, NetCharge(rated, "carrierTotalNetCharge")).Ok?
      && Classifier.ToFloat(env.parseFloat, NetCharge(rated, "calcTotalNetCharge")).Ok?
    ensures Summarize(env, state).Ok?
  {
  }

  /** Rated data that is not a dict sends the model path to the fallback,
      and the fallback raises the same error: no summary is produced. */
  lemma NonDictRatedDataFails(env: Env, state: Object)
    requires !DictLike(GetOr(state, "rated_data", Dict(map[])))
    ensures Summarize(env, state) == Raised("AttributeError")
  {
  }

  /** `summarize_audit`: building the agent raises when its chat client
      cannot be built; otherwise the log lines read only the summary text
      and the bullet count, so the node's update is the summary's. */
  function SummarizeNode(env: Env, state: Object): (r: Result<Object>)
    ensures env.summaryClientInit.Some? ==> r == Raised(env.summaryClientInit.value)
    ensures env.summaryClientInit.None? ==> r == Summarize(env, state)
    ensures r.Ok? ==> r.value.Keys == {"audit_summary", "summary_bullets"}
  {
    if env.summaryClientInit.Some? then Raised(env.summaryClientInit.value)
    else Summarize(env, state)
  }
}
