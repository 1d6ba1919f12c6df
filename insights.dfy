/** The edge function that turns the generative model's reply into an
    `AIInsight`. Only its decision logic is modelled: the model's reply
    text (or the failure to obtain it) and `JSON.parse` are parameters. */
module Insights {
  import opened Wrappers
  import opened Text
  import opened Domain

  /** The fields of the parsed JSON object that are read. A field that is
      missing or `null` is `None`. */
  datatype ParsedResponse = ParsedResponse(
    confidence: Option<int>,
    estimatedFeePercentage: Option<real>,
    estimatedTimeHours: Option<real>,
    isSupported: Option<bool>,
    notes: Option<string>,
    sourceInfo: Option<string>)

  /** `JSON.parse`, partial: `None` stands for a thrown `SyntaxError`. */
  type JsonParser = string -> Option<ParsedResponse>

  // JavaScript's `x || d`: `x` when it is present and truthy, `d` otherwise.

  function OrInt(x: Option<int>, d: int): int {
    if x.Some? && x.value != 0 then x.value else d
  }

  function OrReal(x: Option<real>, d: real): real {
    if x.Some? && x.value != 0.0 then x.value else d
  }

  function OrBool(x: Option<bool>, d: bool): bool {
    if x.Some? && x.value then true else d
  }

  function OrString(x: Option<string>, d: string): string {
    if x.Some? && x.value != "" then x.value else d
  }

  const DefaultNotes: string := "AI analysis based on current market data"
  const DefaultSourceInfo: string := "Gemini AI analysis of current PSP capabilities"
  const HeuristicSourceInfo: string := "AI analysis of current market information"

  /** The insight returned when the reply could not be obtained at all. */
  const Fallback: AIInsight := AIInsight(
    40, 3.0, 24.0, false,
    "Unable to get real-time data. This is a fallback estimate.",
    "Fallback analysis due to API unavailability")

  /** The position of the last `c` in `s`, if any. */
  function LastIndexOfChar(s: string, c: char): (r: Option<nat>)
    ensures r.Some? ==> r.value < |s| && s[r.value] == c
    ensures r.Some? ==> forall j :: r.value < j < |s| ==> s[j] != c
    ensures r.None? ==> forall j :: 0 <= j < |s| ==> s[j] != c
    decreases |s|
  {
    if s == [] then None
    else if s[|s| - 1] == c then Some(|s| - 1)
    else LastIndexOfChar(s[..|s| - 1], c)
  }

  /** `c` is found at `i` in `s`, with no `{` before it and no `}` after
      it: the leftmost, longest match of `/\{[\s\S]*\}/` when `c` starts
      with `{` and ends with `}`. */
  ghost predicate GreedyBraceMatchAt(s: string, c: string, i: int) {
    && OccursAt(s, c, i)
    && (forall k :: 0 <= k < i ==> s[k] != '{')
    && (forall k :: i + |c| <= k < |s| ==> s[k] != '}')
  }

  /** The first match of the greedy pattern `/\{[\s\S]*\}/`: from the first
      `{` to the last `}`, provided that `}` comes after the `{`. */
  function JsonCandidate(s: string): (r: Option<string>)
    ensures r.Some? <==> exists i, j :: 0 <= i < j < |s| && s[i] == '{' && s[j] == '}'
    ensures r.Some? ==> 2 <= |r.value| && r.value[0] == '{' && r.value[|r.value| - 1] == '}'
    ensures r.Some? ==> exists i :: GreedyBraceMatchAt(s, r.value, i)
  {
    BracePairExists(s);
    match IndexOf(s, "{")
    case None => None
    case Some(i) =>
      match LastIndexOfChar(s, '}')
      case None => None
      case Some(j) =>
        if i < j then
          GreedySpan(s, i, j);
          Some(s[i..j + 1])
        else None
  }

  /** A `{` followed later by a `}` exists exactly when the first `{` comes
      before the last `}`. */
  lemma BracePairExists(s: string)
    ensures (exists i, j :: 0 <= i < j < |s| && s[i] == '{' && s[j] == '}') <==>
            (var f, l := IndexOf(s, "{"), LastIndexOfChar(s, '}'); f.Some? && l.Some? && f.value < l.value)
  {
    var f, l := IndexOf(s, "{"), LastIndexOfChar(s, '}');
    BraceOccurs(s);
    if exists i, j :: 0 <= i < j < |s| && s[i] == '{' && s[j] == '}' {
      var i, j :| 0 <= i < j < |s| && s[i] == '{' && s[j] == '}';
      assert OccursAt(s, "{", i);
      assert f.Some? && f.value <= i;
      assert l.Some? && j <= l.value;
    }
    if f.Some? && l.Some? && f.value < l.value {
      assert OccursAt(s, "{", f.value);
      assert s[f.value] == '{' && s[l.value] == '}';
    }
  }

  /** The span from the first `{` to the last `}` is the greedy match. */
  lemma GreedySpan(s: string, i: nat, j: nat)
    requires IndexOf(s, "{") == Some(i) && LastIndexOfChar(s, '}') == Some(j) && i < j
    ensures s[i..j + 1][0] == '{' && s[i..j + 1][j - i] == '}'
    ensures GreedyBraceMatchAt(s, s[i..j + 1], i)
  {
    BraceOccurs(s);
  }

  /** `"{"` occurs at `i` exactly when the character there is `{`. */
  lemma BraceOccurs(s: string)
    ensures forall i :: 0 <= i < |s| ==> (OccursAt(s, "{", i) <==> s[i] == '{')
  {
    forall i | 0 <= i < |s| ensures OccursAt(s, "{", i) <==> s[i] == '{' {
      assert |s[i..i + 1]| == 1 && s[i..i + 1][0] == s[i];
    }
  }

  /** The structured branch: each field is the parsed value when truthy,
      otherwise its default. */
  function FromParsed(p: ParsedResponse): (r: AIInsight)
    ensures r.confidence == (if p.confidence == Some(0) || p.confidence.None? then 50 else p.confidence.value)
    ensures r.estimatedFee == (if p.estimatedFeePercentage.Some? && p.estimatedFeePercentage.value != 0.0
                               then p.estimatedFeePercentage.value else 3.0)
    ensures r.estimatedTime == (if p.estimatedTimeHours.Some? && p.estimatedTimeHours.value != 0.0
                                then p.estimatedTimeHours.value else 24.0)
    ensures r.isSupported <==> p.isSupported == Some(true)
    ensures r.notes == (if p.notes.Some? && p.notes.value != "" then p.notes.value else DefaultNotes)
    ensures r.sourceInfo == (if p.sourceInfo.Some? && p.sourceInfo.value != "" then p.sourceInfo.value else DefaultSourceInfo)
    // no field of a structured insight is ever falsy
    ensures r.confidence != 0 && r.estimatedFee != 0.0 && r.estimatedTime != 0.0
    ensures r.notes != "" && r.sourceInfo != ""
  {
    AIInsight(
      OrInt(p.confidence, 50),
      OrReal(p.estimatedFeePercentage, 3.0),
      OrReal(p.estimatedTimeHours, 24.0),
      OrBool(p.isSupported, false),
      OrString(p.notes, DefaultNotes),
      OrString(p.sourceInfo, DefaultSourceInfo))
  }

  /** The keyword branch, taken when no JSON could be read: keyword
      presence in the ASCII-lowercased reply decides every field. */
  function Heuristic(text: string): (r: AIInsight)
    ensures var l := ToLowerAscii(text);
      r.isSupported <==> Occurs(l, "yes") || Occurs(l, "supported") || Occurs(l, "possible")
    ensures var l := ToLowerAscii(text);
      && (r.confidence == 75 <==> r.isSupported && (Occurs(l, "api") || Occurs(l, "integration")))
      && (r.confidence == 60 <==> r.isSupported && !Occurs(l, "api") && !Occurs(l, "integration"))
      && (r.confidence == 35 <==> !r.isSupported)
    ensures var l := ToLowerAscii(text);
      && (r.estimatedFee == 1.5 <==> Occurs(l, "low fee"))
      && (r.estimatedFee == 4.0 <==> !Occurs(l, "low fee") && Occurs(l, "high fee"))
      && (r.estimatedFee == 2.5 <==> !Occurs(l, "low fee") && !Occurs(l, "high fee"))
    ensures var l := ToLowerAscii(text);
      && (r.estimatedTime == 1.0 <==> Occurs(l, "instant"))
      && (r.estimatedTime == 48.0 <==> !Occurs(l, "instant") && Occurs(l, "days"))
      && (r.estimatedTime == 12.0 <==> !Occurs(l, "instant") && !Occurs(l, "days"))
    // the notes are the start of the original text, cut at 200 characters, then "..."
    ensures |r.notes| == (if |text| < 200 then |text| else 200) + 3
    ensures r.notes == text[..|r.notes| - 3] + "..."
    ensures r.sourceInfo == HeuristicSourceInfo
  {
    var l := ToLowerAscii(text);
    IncludesIsOccurs(l, "yes");
    IncludesIsOccurs(l, "supported");
    IncludesIsOccurs(l, "possible");
    IncludesIsOccurs(l, "api");
    IncludesIsOccurs(l, "integration");
    IncludesIsOccurs(l, "low fee");
    IncludesIsOccurs(l, "high fee");
    IncludesIsOccurs(l, "instant");
    IncludesIsOccurs(l, "days");
    var isSupported := Includes(l, "yes") || Includes(l, "supported") || Includes(l, "possible");
    var hasApi := Includes(l, "api") || Includes(l, "integration");
    AIInsight(
      if isSupported then (if hasApi then 75 else 60) else 35,
      if Includes(l, "low fee") then 1.5 else if Includes(l, "high fee") then 4.0 else 2.5,
      if Includes(l, "instant") then 1.0 else if Includes(l, "days") then 48.0 else 12.0,
      isSupported,
      Prefix(text, 200) + "...",
      HeuristicSourceInfo)
  }

  /** The parse step once the reply text is in hand: the structured
      branch when a JSON candidate exists and parses, the keyword branch
      otherwise. */
  function Analyse(text: string, parse: JsonParser): (r: AIInsight)
    ensures (exists c, p :: JsonCandidate(text) == Some(c) && parse(c) == Some(p) && r == FromParsed(p))
            || (r == Heuristic(text) && (JsonCandidate(text).None? || parse(JsonCandidate(text).value).None?))
  {
    match JsonCandidate(text)
    case None => Heuristic(text)
    case Some(c) =>
      match parse(c)
      case None => Heuristic(text)
      case Some(p) => FromParsed(p)
  }

  /** The whole handler: a failure before the reply text is available
      (missing key, HTTP error, empty candidate list) yields the fixed
      fallback; the handler never answers with an error. */
  function Respond(reply: Result<string, string>, parse: JsonParser): (r: AIInsight)
    ensures reply.Failure? ==> r == Fallback
    ensures reply.Success? ==> r == Analyse(reply.value, parse)
  {
    match reply
    case Failure(_) => Fallback
    case Success(text) => Analyse(text, parse)
  }

  /** A reply that only says "unsupported" still counts as supported,
      because "supported" occurs inside it. */
  lemma UnsupportedCountsAsSupported(text: string)
    requires Occurs(ToLowerAscii(text), "unsupported")
    ensures Heuristic(text).isSupported
  {
    var l := ToLowerAscii(text);
    var i :| OccursAt(l, "unsupported", i);
    assert l[i + 2..i + 2 + 9] == l[i..i + 11][2..];
    assert OccursAt(l, "supported", i + 2);
  }

  /** The keyword branch's confidence is one of three fixed values, and its
      notes are never longer than 203 characters. */
  lemma HeuristicBounds(text: string)
    ensures Heuristic(text).confidence in {35, 60, 75}
    ensures Heuristic(text).estimatedFee in {1.5, 2.5, 4.0}
    ensures Heuristic(text).estimatedTime in {1.0, 12.0, 48.0}
    ensures |Heuristic(text).notes| <= 203
  {
  }

  /** Every answer of the handler has a confidence in [0, 100] as long as
      the parser only ever yields confidences in that range. */
  lemma RespondConfidenceInRange(reply: Result<string, string>, parse: JsonParser)
    requires forall c :: parse(c).Some? && parse(c).value.confidence.Some? ==>
               0 <= parse(c).value.confidence.value <= 100
    ensures 0 <= Respond(reply, parse).confidence <= 100
  {
  }
}
