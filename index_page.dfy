/** The results page: the reconciliation of a stored route with an AI
    insight into one `TransferResult`, and the page's two pieces of
    state (`searchResult`, `isSearching`). */
module IndexPage {
  import opened Wrappers
  import opened Text
  import opened Domain
  import opened TransferData
  import Insights

  const ReferralPlaceholder: string := "{{referral_code}}"
  const ReferralCode: string := "canisenddotapp"
  /** The partner whose providers get an affiliate link. */
  const AffiliatePartner: string := "revolut"

  const SuccessColor: string := "hsl(var(--success))"
  const DestructiveColor: string := "hsl(var(--destructive))"
  const WarningColor: string := "hsl(var(--warning))"

  const AiNotesLabel: string := "AI Analysis:"
  const GeminiNotesPrefix: string := "Google Gemini Powered Analysis: "
  const FallbackNotes: string :=
    "Limited information available. This route may be possible through intermediary services."
  const FallbackConfidence: int := 40

  /** `generateAffiliateUrl`: the first placeholder is replaced by the
      referral code; a template without a placeholder comes back as is. */
  function GenerateAffiliateUrl(template: string): (url: string)
    ensures !Occurs(template, ReferralPlaceholder) ==> url == template
    ensures Occurs(template, ReferralPlaceholder) ==>
      exists i :: OccursAt(template, ReferralPlaceholder, i)
                  && (forall j :: 0 <= j < i ==> !OccursAt(template, ReferralPlaceholder, j))
                  && url == template[..i] + ReferralCode + template[i + |ReferralPlaceholder|..]
  {
    ReplaceFirst(template, ReferralPlaceholder, ReferralCode)
  }

  /** The colour token of a status; the same mapping is used by every
      branch of the reconciliation. */
  function StatusColor(s: Status): (c: string)
    ensures c in {SuccessColor, DestructiveColor, WarningColor}
  {
    match s
    case Yes => SuccessColor
    case No => DestructiveColor
    case Maybe => WarningColor
  }

  /** A supported route to a provider whose name holds "Revolut" in any
      letter case, and whose template is non-empty, gets an affiliate link. */
  lemma PartnerInAnyCaseGetsLink(route: TransferRoute, word: string)
    requires route.isSupported && route.toPsp.Some?
    requires route.toPsp.value.affiliateTemplate.Some? && route.toPsp.value.affiliateTemplate.value != ""
    requires Occurs(route.toPsp.value.name, word) && ToLowerAscii(word) == AffiliatePartner
    ensures RouteAffiliateUrl(route).Some?
  {
    LowerKeepsOccurs(route.toPsp.value.name, word);
  }

  /** Distinct statuses get distinct colours, so the colour shows the status. */
  lemma StatusColorInjective(a: Status, b: Status)
    ensures StatusColor(a) == StatusColor(b) ==> a == b
  {
    assert SuccessColor[10] == 's' && DestructiveColor[10] == 'd' && WarningColor[10] == 'w';
  }

  /** `list.find(x => key(x) == id)`: the first element with that key. */
  function FindFirst<T>(xs: seq<T>, key: T -> string, id: string): (r: Option<T>)
    ensures r.None? <==> forall k :: 0 <= k < |xs| ==> key(xs[k]) != id
    ensures r.Some? ==> exists k :: 0 <= k < |xs| && xs[k] == r.value && key(xs[k]) == id
                                    && forall j :: 0 <= j < k ==> key(xs[j]) != id
    decreases |xs|
  {
    if xs == [] then None
    else if key(xs[0]) == id then Some(xs[0])
    else
      var r := FindFirst(xs[1..], key, id);
      assert forall k :: 1 <= k < |xs| ==> xs[k] == xs[1..][k - 1];
      assert r.Some? ==> exists k :: 0 <= k < |xs| && xs[k] == r.value && key(xs[k]) == id
                                     && forall j :: 0 <= j < k ==> key(xs[j]) != id by {
        if r.Some? {
          var k :| 0 <= k < |xs[1..]| && xs[1..][k] == r.value && key(xs[1..][k]) == id
                   && forall j :: 0 <= j < k ==> key(xs[1..][j]) != id;
          assert xs[k + 1] == r.value && key(xs[k + 1]) == id;
        }
      }
      r
  }

  /** JavaScript's `Math.round(s / 2)` for an integer `s`: halves round up. */
  function RoundHalf(s: int): (c: int)
    ensures 2 * c - 1 <= s < 2 * c + 1
  {
    (s + 1) / 2
  }

  /** The confidence of a route-backed result: the rounded average of the
      route's and the AI's confidence when an AI insight is present, the
      route's own value otherwise. A missing route confidence is `null`,
      which JavaScript's `+` treats as 0, so the AI confidence is halved. */
  function BlendConfidence(routeConfidence: Option<int>, ai: Option<AIInsight>): (c: Option<int>)
    ensures ai.None? ==> c == routeConfidence
    ensures ai.Some? ==> c.Some?
    ensures ai.Some? ==>
      var a, b := routeConfidence.GetOr(0), ai.value.confidence;
      2 * c.value - 1 <= a + b < 2 * c.value + 1
      && (if a <= b then a <= c.value <= b else b <= c.value <= a)
    ensures ai.Some? && routeConfidence.None? ==>
      2 * c.value - 1 <= ai.value.confidence < 2 * c.value + 1
  {
    match ai
    case None => routeConfidence
    case Some(insight) => Some(RoundHalf(routeConfidence.GetOr(0) + insight.confidence))
  }

  /** `ai?.x || route.x` for a number: the AI value when there is an AI
      insight and its value is non-zero, the route's value otherwise. */
  function Override(aiValue: Option<real>, routeValue: Option<real>): (v: Option<real>)
    ensures v == aiValue || v == routeValue
    ensures v == aiValue <== aiValue.Some? && aiValue.value != 0.0
    ensures v == routeValue <== aiValue.None? || aiValue.value == 0.0
  {
    if aiValue.Some? && aiValue.value != 0.0 then aiValue else routeValue
  }

  /** The status of a route-backed result: `yes` when the route is
      supported; otherwise `maybe` when the confidence is present and above
      30 (so also non-zero), `no` when it is not. */
  function StatusFor(isSupported: bool, confidence: Option<int>): Status
  {
    if isSupported then Yes
    else if confidence.Some? && confidence.value != 0 && confidence.value > 30 then Maybe
    else No
  }

  /** The affiliate link of a route-backed result: only for a supported
      route whose destination has a non-empty template and a name that
      contains "revolut" in any letter case. */
  function RouteAffiliateUrl(route: TransferRoute): (url: Option<string>)
    ensures url.Some? <==>
      && route.isSupported
      && route.toPsp.Some?
      && route.toPsp.value.affiliateTemplate.Some?
      && route.toPsp.value.affiliateTemplate.value != ""
      && Occurs(ToLowerAscii(route.toPsp.value.name), AffiliatePartner)
    ensures url.Some? ==> url.value == GenerateAffiliateUrl(route.toPsp.value.affiliateTemplate.value)
  {
    match route.toPsp
    case None => None
    case Some(to) =>
      IncludesIsOccurs(ToLowerAscii(to.name), AffiliatePartner);
      if route.isSupported && to.affiliateTemplate.Some? && to.affiliateTemplate.value != ""
         && Includes(ToLowerAscii(to.name), AffiliatePartner)
      then Some(GenerateAffiliateUrl(to.affiliateTemplate.value))
      else None
  }

  /** The notes of a route-backed result: the route's notes followed by the
      AI notes under a label, trimmed, when there is an AI insight. */
  function CombinedNotes(routeNotes: Option<string>, ai: Option<AIInsight>): (n: Option<string>)
    ensures ai.None? ==> n == routeNotes
    ensures ai.Some? ==>
      n == Some(TrimStart(routeNotes.GetOr("") + "\n\n") + AiNotesLabel + TrimEnd(" " + ai.value.notes))
  {
    match ai
    case None => routeNotes
    case Some(insight) =>
      var before := routeNotes.GetOr("") + "\n\n";
      LabelledNotesTrimmed(before, insight.notes);
      Some(Trim(before + AiNotesLabel + " " + insight.notes))
  }

  /** The combined notes hold the `AI Analysis:` label, and the AI notes
      right after it when they do not end in whitespace. */
  lemma CombinedNotesKeepAiNotes(routeNotes: Option<string>, ai: Option<AIInsight>)
    ensures ai.Some? ==> Occurs(CombinedNotes(routeNotes, ai).value, AiNotesLabel)
    ensures ai.Some? && ai.value.notes != [] && !IsWhitespace(ai.value.notes[|ai.value.notes| - 1]) ==>
      Occurs(CombinedNotes(routeNotes, ai).value, AiNotesLabel + " " + ai.value.notes)
  {
    if ai.Some? {
      var before := routeNotes.GetOr("") + "\n\n";
      LabelledNotesTrimmed(before, ai.value.notes);
      AiNotesSurvive(before, ai.value.notes);
    }
  }

  /** Trimming the combined notes removes only the whitespace before the
      route's notes and after the AI notes, so the label survives. */
  lemma LabelledNotesTrimmed(before: string, notes: string)
    ensures Trim(before + AiNotesLabel + " " + notes)
         == TrimStart(before) + AiNotesLabel + TrimEnd(" " + notes)
    ensures Occurs(Trim(before + AiNotesLabel + " " + notes), AiNotesLabel)
  {
    assert AiNotesLabel[0] == 'A' && AiNotesLabel[|AiNotesLabel| - 1] == ':';
    assert before + AiNotesLabel + " " + notes == before + AiNotesLabel + (" " + notes);
    TrimAround(before, AiNotesLabel, " " + notes);
  }

  /** Trimming the combined notes keeps the labelled AI notes whole when
      they do not end in whitespace. */
  lemma AiNotesSurvive(before: string, notes: string)
    ensures notes != [] && !IsWhitespace(notes[|notes| - 1]) ==>
      Occurs(Trim(before + AiNotesLabel + " " + notes), AiNotesLabel + " " + notes)
  {
    if notes != [] && !IsWhitespace(notes[|notes| - 1]) {
      var m := AiNotesLabel + " " + notes;
      assert before + AiNotesLabel + " " + notes == before + m + "";
      assert m[0] == 'A' && m[|m| - 1] == notes[|notes| - 1];
      TrimAround(before, m, "");
    }
  }

  /** The status of an AI-only result. */
  function AiStatus(ai: AIInsight): Status {
    if ai.isSupported then Yes else if ai.confidence > 30 then Maybe else No
  }

  /** The reconciliation in `handleSearch`: a stored route, enhanced by the
      AI insight when there is one; else a result built from the AI insight
      alone; else a fixed, cautious fallback. */
  function Reconcile(query: TransferQuery, route: Option<TransferRoute>, ai: Option<AIInsight>,
                     psps: seq<PSP>, currencies: seq<Currency>): (r: TransferResult)
    // every result is consistent with its own support flag and confidence
    ensures r.status == StatusFor(r.route.isSupported, r.route.confidenceLevel)
    ensures r.statusColor == StatusColor(r.status)
    ensures r.status == Yes <==>
      (route.Some? && route.value.isSupported) || (route.None? && ai.Some? && ai.value.isSupported)
    ensures r.affiliateUrl.Some? ==> r.status == Yes && route.Some?
    // a stored route: its own fields are kept, the derived ones enhanced
    ensures route.Some? ==>
      && r.route.id == route.value.id
      && r.route.fromPspId == route.value.fromPspId
      && r.route.toPspId == route.value.toPspId
      && r.route.currencyId == route.value.currencyId
      && r.route.isSupported == route.value.isSupported
      && r.route.kycRequired == route.value.kycRequired
      && r.route.fromPsp == route.value.fromPsp
      && r.route.toPsp == route.value.toPsp
      && r.route.currency == route.value.currency
      && r.route.confidenceLevel == BlendConfidence(route.value.confidenceLevel, ai)
      && r.route.estimatedFeePercentage == Override(if ai.Some? then Some(ai.value.estimatedFee) else None,
                                                    route.value.estimatedFeePercentage)
      && r.route.estimatedTimeHours == Override(if ai.Some? then Some(ai.value.estimatedTime) else None,
                                                route.value.estimatedTimeHours)
      && r.route.notes == CombinedNotes(route.value.notes, ai)
      && r.affiliateUrl == RouteAffiliateUrl(route.value)
    ensures route.Some? && route.value.isSupported ==> r.status == Yes
    ensures route.Some? && !route.value.isSupported ==>
      (r.status == Maybe <==> var c := r.route.confidenceLevel; c.Some? && c.value > 30)
    // no route, an AI insight: its values, labelled as AI-derived
    ensures route.None? && ai.Some? ==>
      && r.route == TransferRoute(
           "", query.fromPsp, query.toPsp, query.currency, ai.value.isSupported,
           Some(ai.value.confidence), Some(ai.value.estimatedFee), Some(ai.value.estimatedTime), None,
           Some(GeminiNotesPrefix + ai.value.notes + "\n\nSource: " + ai.value.sourceInfo),
           FindFirst(psps, (p: PSP) => p.id, query.fromPsp),
           FindFirst(psps, (p: PSP) => p.id, query.toPsp),
           FindFirst(currencies, (c: Currency) => c.id, query.currency))
      && r.status == AiStatus(ai.value)
      && r.affiliateUrl.None?
    // neither: a cautious "maybe"
    ensures route.None? && ai.None? ==>
      && r.route == TransferRoute(
           "", query.fromPsp, query.toPsp, query.currency, false,
           Some(FallbackConfidence), None, None, None, Some(FallbackNotes),
           FindFirst(psps, (p: PSP) => p.id, query.fromPsp),
           FindFirst(psps, (p: PSP) => p.id, query.toPsp),
           FindFirst(currencies, (c: Currency) => c.id, query.currency))
      && r.status == Maybe
      && r.affiliateUrl.None?
  {
    match route
    case Some(rt) =>
      var confidence := BlendConfidence(rt.confidenceLevel, ai);
      var fee := Override(if ai.Some? then Some(ai.value.estimatedFee) else None, rt.estimatedFeePercentage);
      var time := Override(if ai.Some? then Some(ai.value.estimatedTime) else None, rt.estimatedTimeHours);
      var status := StatusFor(rt.isSupported, confidence);
      TransferResult(
        rt.(confidenceLevel := confidence, estimatedFeePercentage := fee, estimatedTimeHours := time,
            notes := CombinedNotes(rt.notes, ai)),
        status, StatusColor(status), RouteAffiliateUrl(rt))
    case None =>
      var fromPsp := FindFirst(psps, (p: PSP) => p.id, query.fromPsp);
      var toPsp := FindFirst(psps, (p: PSP) => p.id, query.toPsp);
      var currency := FindFirst(currencies, (c: Currency) => c.id, query.currency);
      match ai
      case Some(insight) =>
        var status := AiStatus(insight);
        TransferResult(
          TransferRoute(
            "", query.fromPsp, query.toPsp, query.currency, insight.isSupported,
            Some(insight.confidence), Some(insight.estimatedFee), Some(insight.estimatedTime), None,
            Some(GeminiNotesPrefix + insight.notes + "\n\nSource: " + insight.sourceInfo),
            fromPsp, toPsp, currency),
          status, StatusColor(status), None)
      case None =>
        TransferResult(
          TransferRoute(
            "", query.fromPsp, query.toPsp, query.currency, false,
            Some(FallbackConfidence), None, None, None, Some(FallbackNotes),
            fromPsp, toPsp, currency),
          Maybe, WarningColor, None)
  }

  /** With both confidences in [0, 100], so is the result's. */
  lemma ReconcileConfidenceInRange(query: TransferQuery, route: Option<TransferRoute>, ai: Option<AIInsight>,
                                   psps: seq<PSP>, currencies: seq<Currency>)
    requires route.Some? && route.value.confidenceLevel.Some? ==> 0 <= route.value.confidenceLevel.value <= 100
    requires ai.Some? ==> 0 <= ai.value.confidence <= 100
    ensures var c := Reconcile(query, route, ai, psps, currencies).route.confidenceLevel;
      c.Some? ==> 0 <= c.value <= 100
  {
  }

  /** The threshold is strict: an unsupported route with confidence 50 is
      lifted to `maybe` by an AI confidence of 20 (average 35) but not by
      one of 10 (average 30). */
  lemma BlendThreshold(ai: AIInsight)
    requires ai.confidence == 20 || ai.confidence == 10
    ensures var c := BlendConfidence(Some(50), Some(ai));
      if ai.confidence == 20 then c == Some(35) && StatusFor(false, c) == Maybe
      else c == Some(30) && StatusFor(false, c) == No
  {
  }

  /** When the insight call falls back, an unsupported route shows `maybe`
      exactly when its own confidence is at least 21, and with no route at
      all the result is `maybe` at confidence 40. */
  lemma FallbackInsightOutcome(query: TransferQuery, route: Option<TransferRoute>, error: string,
                               parse: Insights.JsonParser, psps: seq<PSP>, currencies: seq<Currency>)
    ensures var r := Reconcile(query, route, Some(Insights.Respond(Failure(error), parse)), psps, currencies);
      && (route.Some? && !route.value.isSupported ==>
            (r.status == Maybe <==> route.value.confidenceLevel.Some? && route.value.confidenceLevel.value >= 21))
      && (route.None? ==> r.status == Maybe && r.route.confidenceLevel == Some(40))
  {
  }

  /** The page's state: the result on display, if any, and whether a
      search is in flight. */
  class SearchPage {
    var searchResult: Option<TransferResult>
    var isSearching: bool

    constructor ()
      ensures searchResult.None? && !isSearching
      ensures ShowsSearchForm()
    {
      searchResult := None;
      isSearching := false;
    }

    /** The page's switch between the search form and the result card:
        the form is shown exactly while there is no result. */
    predicate ShowsSearchForm(): (shown: bool)
      reads this
      ensures shown <==> searchResult.None?
    {
      searchResult.None?
    }

    /** The start of `handleSearch`: the search is in flight. */
    method StartSearch()
      modifies this
      ensures isSearching
      ensures searchResult == old(searchResult)
    {
      isSearching := true;
    }

    /** The rest of `handleSearch`, once both lookups have settled: on
        success the reconciled result is shown; when either lookup threw,
        the previous result stays and a failure notice is raised. Either
        way the search is no longer in flight. */
    method FinishSearch(query: TransferQuery, reply: StoreReply, ai: Result<Option<AIInsight>, string>,
                        psps: seq<PSP>, currencies: seq<Currency>)
      returns (failureNotice: bool)
      modifies this
      ensures !isSearching
      ensures failureNotice <==> SearchRoute(reply).Failure? || ai.Failure?
      ensures !failureNotice ==>
        searchResult == Some(Reconcile(query, SearchRoute(reply).value, ai.value, psps, currencies))
      ensures failureNotice ==> searchResult == old(searchResult)
      ensures !failureNotice ==> !ShowsSearchForm()
    {
      var route := SearchRoute(reply);
      if route.Success? && ai.Success? {
        searchResult := Some(Reconcile(query, route.value, ai.value, psps, currencies));
        failureNotice := false;
      } else {
        failureNotice := true;
      }
      isSearching := false;
    }

    /** `handleSearch` from start to end. */
    method HandleSearch(query: TransferQuery, reply: StoreReply, ai: Result<Option<AIInsight>, string>,
                        psps: seq<PSP>, currencies: seq<Currency>)
      returns (failureNotice: bool)
      modifies this
      ensures !isSearching
      ensures failureNotice <==> SearchRoute(reply).Failure? || ai.Failure?
      ensures !failureNotice ==>
        searchResult == Some(Reconcile(query, SearchRoute(reply).value, ai.value, psps, currencies))
      ensures failureNotice ==> searchResult == old(searchResult)
      ensures !failureNotice ==> !ShowsSearchForm()
    {
      StartSearch();
      failureNotice := FinishSearch(query, reply, ai, psps, currencies);
    }

    /** `handleNewSearch`: the result is dropped and the form comes back. */
    method HandleNewSearch()
      modifies this
      ensures searchResult.None? && ShowsSearchForm()
      ensures isSearching == old(isSearching)
    {
      searchResult := None;
    }
  }
}
