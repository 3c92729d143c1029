/** The reply side of the risk pipeline (app/risk_assessment/service.py):
    `_parse_rag_risk_response`, which asks the model to turn the retrieval
    answer into JSON, strips a Markdown code fence, decodes the object and
    maps its keys onto a `RiskAssessmentResult`; and the two builders of
    constant results, `_parse_traditional_risk_response` and
    `_create_fallback_assessment`. The completion call, `json.loads` and
    Python's `hash` are parameters. */
module RiskParser {
  import opened Wrappers
  import opened PyStr
  import opened PyValue
  import opened RiskRecords

  // ---------------------------------------------------------------------
  // Code fences
  // ---------------------------------------------------------------------

  const JsonFence := "```json"
  const Fence := "```"

  /** A line that closes a code fence once trimmed. */
  predicate IsFence(line: string) {
    Strip(line) == Fence
  }

  /** Which lines close a fence. */
  function FenceMarks(lines: seq<string>): (m: seq<bool>)
    ensures |m| == |lines| && forall i :: 0 <= i < |lines| ==> m[i] == IsFence(lines[i])
  {
    seq(|lines|, i requires 0 <= i < |lines| => IsFence(lines[i]))
  }

  /** The backward scan over indexes `n - 1` down to 1: the first marked index
      met, or `|marks|` when there is none. */
  function LastMarked(marks: seq<bool>, n: nat): (r: nat)
    requires n <= |marks|
    ensures r == |marks| || (1 <= r < n && marks[r])
    ensures r == |marks| ==> forall i :: 1 <= i < n ==> !marks[i]
    ensures r < |marks| ==> forall i :: r < i < n ==> !marks[i]
    decreases n
  {
    if n <= 1 then |marks|
    else if marks[n - 1] then n - 1
    else LastMarked(marks, n - 1)
  }

  /** Where the kept lines end: the last closing fence at index 1 or above, or
      the end of the text. */
  function CloseIndex(lines: seq<string>): (r: nat)
    requires |lines| >= 1
    ensures 1 <= r <= |lines|
    ensures r < |lines| ==> IsFence(lines[r])
    ensures r == |lines| ==> forall i :: 1 <= i < |lines| ==> !IsFence(lines[i])
    ensures forall i :: r < i < |lines| ==> !IsFence(lines[i])
  {
    LastMarked(FenceMarks(lines), |lines|)
  }

  /** The text handed to `json.loads`: a reply starting with "```json" loses its
      first line and everything from the last closing fence on; any other
      reply passes through unchanged. */
  function FenceStripped(content: string): (r: string)
    ensures !StartsWith(content, JsonFence) ==> r == content
  {
    if StartsWith(content, JsonFence) then
      var lines := Split(content, "\n");
      Join("\n", lines[1..CloseIndex(lines)])
    else content
  }

  /** The fence stripper as the source writes it: split into lines, scan
      backwards from the last line to line 1 for a closing fence, stop at the
      first one found, and join the lines between. */
  method StripCodeFence(content: string) returns (clean: string)
    ensures clean == FenceStripped(content)
  {
    if StartsWith(content, JsonFence) {
      var lines := Split(content, "\n");
      var jsonStart := 1;
      var jsonEnd := |lines|;
      for i := |lines| downto 1
        invariant jsonEnd == |lines|
        invariant CloseIndex(lines) == LastMarked(FenceMarks(lines), i)
      {
        if Strip(lines[i]) == Fence {
          jsonEnd := i;
          break;
        }
      }
      assert jsonEnd == CloseIndex(lines);
      clean := Join("\n", lines[jsonStart..jsonEnd]);
    } else {
      clean := content;
    }
  }

  /** Joining keeps the first line's prefix. */
  lemma JoinKeepsPrefix(lines: seq<string>, p: string)
    requires lines != [] && StartsWith(lines[0], p)
    ensures StartsWith(Join("\n", lines), p)
  {
    if |lines| > 1 {
      var s := Join("\n", lines);
      ConcatEnds(lines[0], "\n" + Join("\n", lines[1..]));
      assert s == lines[0] + ("\n" + Join("\n", lines[1..]));
      StartsWithTrans(p, lines[0], s);
    }
  }

  /** The lines of a reply starting with "```json", split at their newlines. */
  lemma FencedLines(lines: seq<string>)
    requires lines != [] && StartsWith(lines[0], JsonFence)
    requires forall k :: 0 <= k < |lines| ==> '\n' !in lines[k]
    ensures FenceStripped(Join("\n", lines)) == Join("\n", lines[1..CloseIndex(lines)])
  {
    SplitJoin('\n', lines);
    JoinKeepsPrefix(lines, JsonFence);
  }

  lemma FenceFacts()
    ensures '\n' !in JsonFence && '\n' !in Fence
    ensures StartsWith(JsonFence, JsonFence)
    ensures IsFence(Fence)
  {
    StripOfStripped(Fence);
  }

  /** Cutting a fenced reply `opener, body, closer, trailer` at its last
      closing fence keeps the body. */
  lemma FenceCut(opener: string, body: seq<string>, closer: string, trailer: seq<string>)
    requires StartsWith(opener, JsonFence) && '\n' !in opener
    requires '\n' !in closer && IsFence(closer)
    requires forall k :: 0 <= k < |body| ==> '\n' !in body[k]
    requires forall k :: 0 <= k < |trailer| ==> '\n' !in trailer[k] && !IsFence(trailer[k])
    ensures FenceStripped(Join("\n", [opener] + body + [closer] + trailer)) == Join("\n", body)
  {
    var lines := [opener] + body + [closer] + trailer;
    FenceLayout(opener, body, closer, trailer);
    FencedLines(lines);
    CloseAt(lines, |body| + 1);
  }

  /** Where the parts of a fenced reply sit among its lines. */
  lemma {:induction false} FenceLayout(opener: string, body: seq<string>, closer: string, trailer: seq<string>)
    requires '\n' !in opener && '\n' !in closer
    requires forall k :: 0 <= k < |body| ==> '\n' !in body[k]
    requires forall k :: 0 <= k < |trailer| ==> '\n' !in trailer[k] && !IsFence(trailer[k])
    ensures var lines, f := [opener] + body + [closer] + trailer, |body| + 1;
      && f < |lines| && lines[0] == opener && lines[f] == closer && lines[1..f] == body
      && (forall k :: 0 <= k < |lines| ==> '\n' !in lines[k])
      && (forall i :: f < i < |lines| ==> !IsFence(lines[i]))
  {
    var lines := [opener] + body + [closer] + trailer;
    var f := |body| + 1;
    forall k | 0 <= k < |lines| ensures '\n' !in lines[k] {
      if 1 <= k < f { assert lines[k] == body[k - 1]; }
      else if k > f { assert lines[k] == trailer[k - f - 1]; }
    }
    forall i | f < i < |lines| ensures !IsFence(lines[i]) {
      assert lines[i] == trailer[i - f - 1];
    }
    assert lines[1..f] == body;
  }

  /** A fence at `f` with none after it is where the kept lines end. */
  lemma CloseAt(lines: seq<string>, f: nat)
    requires 1 <= f < |lines| && IsFence(lines[f])
    requires forall i :: f < i < |lines| ==> !IsFence(lines[i])
    ensures CloseIndex(lines) == f
  {
  }

  /** With no fence after the first line the kept lines run to the end. */
  lemma NoClose(lines: seq<string>)
    requires |lines| >= 1
    requires forall i :: 1 <= i < |lines| ==> !IsFence(lines[i])
    ensures CloseIndex(lines) == |lines|
  {
  }

  /** Round trip: wrap JSON lines in a "```json" fence, optionally followed by
      lines holding no fence, and the stripper returns the JSON lines. Fence
      lines inside the JSON are kept, since the scan stops at the last one. */
  lemma FenceRoundTrip(body: seq<string>, trailer: seq<string>)
    requires forall k :: 0 <= k < |body| ==> '\n' !in body[k]
    requires forall k :: 0 <= k < |trailer| ==> '\n' !in trailer[k] && !IsFence(trailer[k])
    ensures FenceStripped(Join("\n", [JsonFence] + body + [Fence] + trailer)) == Join("\n", body)
  {
    FenceFacts();
    FenceCut(JsonFence, body, Fence, trailer);
  }

  /** Cutting a reply `opener, body` with no closing fence keeps the body. */
  lemma NoFenceCut(opener: string, body: seq<string>)
    requires StartsWith(opener, JsonFence) && '\n' !in opener
    requires forall k :: 0 <= k < |body| ==> '\n' !in body[k] && !IsFence(body[k])
    ensures FenceStripped(Join("\n", [opener] + body)) == Join("\n", body)
  {
    var lines := [opener] + body;
    OpenLayout(opener, body);
    FencedLines(lines);
    NoClose(lines);
    assert lines[1..CloseIndex(lines)] == body;
  }

  /** Where the parts of an unclosed reply sit among its lines. */
  lemma {:induction false} OpenLayout(opener: string, body: seq<string>)
    requires '\n' !in opener
    requires forall k :: 0 <= k < |body| ==> '\n' !in body[k] && !IsFence(body[k])
    ensures var lines := [opener] + body;
      && lines[0] == opener && lines[1..|lines|] == body
      && (forall k :: 0 <= k < |lines| ==> '\n' !in lines[k])
      && (forall i :: 1 <= i < |lines| ==> !IsFence(lines[i]))
  {
    var lines := [opener] + body;
    forall k | 1 <= k < |lines| ensures '\n' !in lines[k] && !IsFence(lines[k]) {
      assert lines[k] == body[k - 1];
    }
    assert lines[1..|lines|] == body;
  }

  /** Without a closing fence every line after the first is kept. */
  lemma UnclosedFence(body: seq<string>)
    requires forall k :: 0 <= k < |body| ==> '\n' !in body[k] && !IsFence(body[k])
    ensures FenceStripped(Join("\n", [JsonFence] + body)) == Join("\n", body)
  {
    FenceFacts();
    NoFenceCut(JsonFence, body);
  }

  // ---------------------------------------------------------------------
  // The parsing prompt
  // ---------------------------------------------------------------------

  const Indent12 := "\n            "
  const Indent16 := "\n                "

  /** The keys the parsing prompt asks the model for. */
  const RiskLevelKey := "riskLevel"
  const RiskScoreKey := "riskScore"
  const StabilityKey := "financialStability"
  const CreditKey := "creditProfile"
  const LegitimacyKey := "businessLegitimacy"
  const RiskFactorsKey := "riskFactors"
  const MitigatingKey := "mitigatingFactors"
  const RecommendationsKey := "recommendations"
  const VerificationKey := "verificationNotes"
  const RequestedKeys: seq<string> := [RiskLevelKey, RiskScoreKey, StabilityKey, CreditKey, LegitimacyKey,
                                       RiskFactorsKey, MitigatingKey, RecommendationsKey, VerificationKey]

  /** One `"key": "description"` line of the JSON template. */
  function KeyLine(key: string, description: string): string {
    Indent16 + "\"" + key + "\": \"" + description + "\""
  }

  /** The description of each requested key in the JSON template. */
  const RiskLevelText := "Low/Medium/High/Critical - with specific reasoning from risk analysis"
  const RiskScoreText := "Numerical risk score with detailed explanation and methodology"
  const StabilityText := "Comprehensive financial health assessment with metrics and analysis"
  const CreditText := "Credit history analysis with specific findings and implications"
  const LegitimacyText := "Business legitimacy assessment with compliance and verification details"
  const RiskFactorsText := "Specific risk factors identified with impact levels and probability assessment"
  const MitigatingText := "Positive factors that reduce risk with quantitative impact when possible"
  const RecommendationsText := "Strategic recommendations for risk mitigation and business improvement"
  const VerificationText := "Due diligence requirements and additional verification recommendations"

  const TemplateLines :=
    KeyLine(RiskLevelKey, RiskLevelText) + ","
    + KeyLine(RiskScoreKey, RiskScoreText) + ","
    + KeyLine(StabilityKey, StabilityText) + ","
    + KeyLine(CreditKey, CreditText) + ","
    + KeyLine(LegitimacyKey, LegitimacyText) + ","
    + KeyLine(RiskFactorsKey, RiskFactorsText) + ","
    + KeyLine(MitigatingKey, MitigatingText) + ","
    + KeyLine(RecommendationsKey, RecommendationsText) + ","
    + KeyLine(VerificationKey, VerificationText)

  const ParseInstruction :=
    "Parse the following comprehensive business risk assessment response and extract detailed, specific information for each field."
  const ParseSource := "RAG Response from Business Risk Analysis:"
  const ParseRequest :=
    "Extract and return ONLY a JSON object with these exact fields, ensuring each response is detailed and specific:"
  const ParseImportant := "Important: "
  const ParseRule1 := "- Make responses detailed and specific, not generic"
  const ParseRule2 := "- Reference actual risk frameworks when mentioned in the analysis"
  const ParseRule3 := "- Include specific metrics, percentages, or criteria when available"
  const ParseRule4 := "- Provide actionable insights rather than generic statements"

  const ParseIntro := Indent12 + ParseInstruction + Indent12 + Indent12 + ParseSource + Indent12

  const ParseTail :=
    Indent12 + Indent12 + ParseRequest + Indent12 + "{" + TemplateLines + Indent12 + "}"
    + Indent12 + Indent12 + ParseImportant + Indent12 + ParseRule1 + Indent12 + ParseRule2
    + Indent12 + ParseRule3 + Indent12 + ParseRule4 + Indent12

  /** The prompt that asks the model to turn the retrieval answer into JSON:
      the answer is embedded verbatim between the instructions and the
      template of the requested keys. */
  function ParsingPrompt(ragResponse: string): string {
    ParseIntro + ragResponse + ParseTail
  }

  // ---------------------------------------------------------------------
  // Mapping the decoded object
  // ---------------------------------------------------------------------

  /** The keys the mapping reads, in the order of the result's fields. */
  const ReadKeys: seq<string> := ["overallRiskLevel", "riskScore", "financialRisk", "operationalRisk",
                                  "marketRisk", "complianceRisk", "riskFactors", "mitigationStrategies",
                                  "riskSummary"]

  /** The text each field takes when its key is missing. */
  const MissingDefaults: seq<string> := [
    "Medium", "Risk score calculation in progress", "Financial risk assessment pending",
    "Operational risk analysis required", "Market risk evaluation in progress",
    "Compliance risk assessment pending", "Risk factor identification in progress",
    "Risk mitigation strategies pending", "Risk assessment summary in progress"]

  const ResultFields := 9

  /** Text field `j` of a result, in declaration order. */
  function Field(r: RiskAssessmentResult, j: nat): Value
    requires j < ResultFields
  {
    if j == 0 then r.overallRiskLevel
    else if j == 1 then r.riskScore
    else if j == 2 then r.financialRisk
    else if j == 3 then r.operationalRisk
    else if j == 4 then r.marketRisk
    else if j == 5 then r.complianceRisk
    else if j == 6 then r.riskFactors
    else if j == 7 then r.mitigationStrategies
    else r.riskSummary
  }

  /** `parsed_data.get(key, default)` for field `j`. */
  function Pick(entries: seq<(string, Value)>, j: nat): Value
    requires j < ResultFields
  {
    Lookup(entries, ReadKeys[j]).GetOr(Str(MissingDefaults[j]))
  }

  /** `f"RA_{hash(data.companyName)}_{data.businessId}"`. */
  function AssessmentId(companyHash: int, businessId: Value): string {
    "RA_" + IntToStr(companyHash) + "_" + Show(businessId)
  }

  /** The result built from a decoded object. */
  function MapFields(entries: seq<(string, Value)>, companyHash: int, businessId: Value): (r: RiskAssessmentResult)
    ensures r.assessmentId == AssessmentId(companyHash, businessId)
    ensures forall j :: 0 <= j < ResultFields ==> Field(r, j) == Pick(entries, j)
  {
    RiskAssessmentResult(
      Pick(entries, 0), Pick(entries, 1), Pick(entries, 2), Pick(entries, 3), Pick(entries, 4),
      Pick(entries, 5), Pick(entries, 6), Pick(entries, 7), Pick(entries, 8),
      AssessmentId(companyHash, businessId))
  }

  /** A decoded JSON object never repeats a key. */
  predicate DistinctKeys(entries: seq<(string, Value)>) {
    forall a, b :: 0 <= a < b < |entries| ==> entries[a].0 != entries[b].0
  }

  lemma LookupDistinct(entries: seq<(string, Value)>, k: nat)
    requires DistinctKeys(entries) && k < |entries|
    ensures Lookup(entries, entries[k].0) == Some(entries[k].1)
  {
    var r := Lookup(entries, entries[k].0);
    var k' :| 0 <= k' < |entries| && entries[k'] == (entries[k].0, r.value);
    assert k' == k;
  }

  /** A field whose key the object holds takes the object's value, whatever it is. */
  lemma MappedFieldPresent(entries: seq<(string, Value)>, companyHash: int, businessId: Value, j: nat, k: nat)
    requires DistinctKeys(entries)
    requires j < ResultFields && k < |entries| && entries[k].0 == ReadKeys[j]
    ensures Field(MapFields(entries, companyHash, businessId), j) == entries[k].1
  {
    LookupDistinct(entries, k);
  }

  /** A field whose key the object lacks takes its own default text. */
  lemma MappedFieldAbsent(entries: seq<(string, Value)>, companyHash: int, businessId: Value, j: nat)
    requires j < ResultFields
    requires forall k :: 0 <= k < |entries| ==> entries[k].0 != ReadKeys[j]
    ensures Field(MapFields(entries, companyHash, businessId), j) == Str(MissingDefaults[j])
  {
  }

  /** Of the nine keys the parsing prompt requests, only `riskScore` and
      `riskFactors` are read back. */
  lemma RequestedKeysRead()
    ensures ReadKeys[1] == RequestedKeys[1] && ReadKeys[6] == RequestedKeys[5]
    ensures forall j :: 0 <= j < ResultFields && j != 1 && j != 6 ==> ReadKeys[j] !in RequestedKeys
  {
  }

  /** An object that holds only the requested keys leaves seven of the nine
      fields at their defaults. */
  lemma RequestedShapeIgnored(entries: seq<(string, Value)>, companyHash: int, businessId: Value, j: nat)
    requires forall k :: 0 <= k < |entries| ==> entries[k].0 in RequestedKeys
    requires j < ResultFields && j != 1 && j != 6
    ensures Field(MapFields(entries, companyHash, businessId), j) == Str(MissingDefaults[j])
  {
    RequestedKeysRead();
    MappedFieldAbsent(entries, companyHash, businessId, j);
  }

  // ---------------------------------------------------------------------
  // Constant results
  // ---------------------------------------------------------------------

  const Medium := "Medium"

  const TraditionalScore := "Risk score assessment based on available data"
  const TraditionalFinancial := "Financial risk analysis completed"
  const TraditionalOperational := "Operational risk assessment based on business profile"
  const TraditionalMarket := "Market risk evaluation based on industry position"
  const TraditionalCompliance := "Compliance risk assessment completed"
  const TraditionalFactors := "Standard business risk factors identified"
  const TraditionalMitigation := "Risk mitigation strategies recommended"
  const TraditionalSummary := "Comprehensive risk assessment completed with available data"

  /** `_parse_traditional_risk_response`: nine fixed texts; the reply is not read. */
  function TraditionalAssessment(responseText: string, data: BusinessRiskData, companyHash: int): (r: RiskAssessmentResult)
    ensures r.overallRiskLevel == Str(Medium)
    ensures r.assessmentId == AssessmentId(companyHash, data.businessId)
  {
    RiskAssessmentResult(
      Str(Medium), Str(TraditionalScore), Str(TraditionalFinancial), Str(TraditionalOperational),
      Str(TraditionalMarket), Str(TraditionalCompliance), Str(TraditionalFactors),
      Str(TraditionalMitigation), Str(TraditionalSummary),
      AssessmentId(companyHash, data.businessId))
  }

  /** The traditional result does not depend on the reply. */
  lemma TraditionalIgnoresReply(a: string, b: string, data: BusinessRiskData, companyHash: int)
    ensures TraditionalAssessment(a, data, companyHash) == TraditionalAssessment(b, data, companyHash)
  {
  }

  const ScoreOpen := "Risk assessment for "
  const ScoreClose := " requires manual review"
  const FallbackFinancial := "Financial risk analysis requires additional data"
  const FallbackOperational := "Operational risk assessment pending comprehensive review"
  const FallbackMarket := "Market risk evaluation requires industry analysis"
  const FallbackCompliance := "Compliance risk assessment requires regulatory review"
  const FallbackFactors := "Risk factor identification requires detailed manual analysis"
  const FallbackMitigation := "Risk mitigation strategies require comprehensive assessment"
  const FallbackSummary := "Manual risk assessment and due diligence required for complete evaluation"

  /** `f"Risk assessment for {company} requires manual review"`. */
  function ScoreText(company: Value): (r: string)
    ensures StartsWith(r, ScoreOpen + Show(company)) && EndsWith(r, ScoreClose)
  {
    ConcatEnds(ScoreOpen + Show(company), ScoreClose);
    ScoreOpen + Show(company) + ScoreClose
  }

  /** The score text names the company: equal texts come from companies that
      print the same. */
  lemma ScoreTextNamesCompany(a: Value, b: Value)
    requires ScoreText(a) == ScoreText(b)
    ensures Show(a) == Show(b)
  {
    MiddleCancels(ScoreOpen, Show(a), Show(b), ScoreClose);
  }

  lemma MiddleCancels(p: string, x: string, y: string, s: string)
    requires p + x + s == p + y + s
    ensures x == y
  {
    assert |x| == |y|;
    assert x == (p + x + s)[|p|..|p| + |x|];
    assert y == (p + y + s)[|p|..|p| + |y|];
  }

  /** `f"RA_{hash(company)}_FALLBACK"`. */
  function FallbackId(companyHash: int): string {
    "RA_" + IntToStr(companyHash) + "_FALLBACK"
  }

  /** `_create_fallback_assessment(company)`. */
  function FallbackAssessment(company: Value, companyHash: int): (r: RiskAssessmentResult)
    ensures r.overallRiskLevel == Str(Medium)
    ensures r.riskScore == Str(ScoreText(company))
    ensures r.assessmentId == FallbackId(companyHash)
  {
    RiskAssessmentResult(
      Str(Medium), Str(ScoreText(company)), Str(FallbackFinancial), Str(FallbackOperational),
      Str(FallbackMarket), Str(FallbackCompliance), Str(FallbackFactors),
      Str(FallbackMitigation), Str(FallbackSummary),
      FallbackId(companyHash))
  }

  /** Two fallbacks with the same score text were built for companies that
      print the same. */
  lemma FallbackNamesCompany(a: Value, b: Value, hashA: int, hashB: int)
    requires FallbackAssessment(a, hashA).riskScore == FallbackAssessment(b, hashB).riskScore
    ensures Show(a) == Show(b)
  {
    ScoreTextNamesCompany(a, b);
  }

  /** A business whose id is the text "FALLBACK" gets the fallback's
      identifier on a successful parse too. */
  lemma FallbackIdCollides(companyHash: int)
    ensures AssessmentId(companyHash, Str("FALLBACK")) == FallbackId(companyHash)
  {
    assert "RA_" + IntToStr(companyHash) + "_" + "FALLBACK" == "RA_" + IntToStr(companyHash) + "_FALLBACK";
  }

  // ---------------------------------------------------------------------
  // The RAG parse
  // ---------------------------------------------------------------------

  /** Which way `_parse_rag_risk_response` ends: mapping a decoded object, or
      the fallback. */
  datatype RagOutcome = Mapped(entries: seq<(string, Value)>) | FellBack

  /** What follows the model call: `reply` is the message content (None when
      the call raises or returns nothing) and `decode` stands for `json.loads`
      (None when it raises). The reply is trimmed and unfenced; a decoded
      object is mapped, and a failed call, an undecodable reply or a decoded
      value that is not an object (whose `.get` raises) falls back. */
  function ReplyOutcome(reply: Option<string>, decode: string -> Option<Value>): (r: RagOutcome)
    ensures r.Mapped? <==> reply.Some? && decode(FenceStripped(Strip(reply.value))).Some?
                           && decode(FenceStripped(Strip(reply.value))).value.Dict?
    ensures r.Mapped? ==> decode(FenceStripped(Strip(reply.value))) == Some(Dict(r.entries))
  {
    match reply
    case None => FellBack
    case Some(content) =>
      match decode(FenceStripped(Strip(content)))
      case Some(Dict(entries)) => Mapped(entries)
      case _ => FellBack
  }

  /** A missing or blank retrieval answer falls back before any model call;
      otherwise the reply to the parsing prompt decides. */
  function RagOutcomeOf(ragResponse: Option<string>, complete: string -> Option<string>,
                        decode: string -> Option<Value>): (r: RagOutcome)
    ensures ragResponse.None? || Strip(ragResponse.value) == "" ==> r == FellBack
    ensures ragResponse.Some? && Strip(ragResponse.value) != ""
            ==> r == ReplyOutcome(complete(ParsingPrompt(ragResponse.value)), decode)
  {
    if ragResponse.None? || Strip(ragResponse.value) == "" then FellBack
    else ReplyOutcome(complete(ParsingPrompt(ragResponse.value)), decode)
  }

  /** The result an outcome yields. */
  function OutcomeAssessment(outcome: RagOutcome, data: BusinessRiskData, companyHash: int): (r: RiskAssessmentResult)
    ensures outcome.FellBack? ==> r == FallbackAssessment(data.companyName, companyHash)
    ensures outcome.Mapped? ==> r.assessmentId == AssessmentId(companyHash, data.businessId)
                                && forall j :: 0 <= j < ResultFields ==> Field(r, j) == Pick(outcome.entries, j)
  {
    match outcome
    case Mapped(entries) => MapFields(entries, companyHash, data.businessId)
    case FellBack => FallbackAssessment(data.companyName, companyHash)
  }

  /** `_parse_rag_risk_response` with the model call `complete`. */
  method ParseRagRiskResponse(ragResponse: Option<string>, data: BusinessRiskData, companyHash: int,
                              complete: string -> Option<string>, decode: string -> Option<Value>)
    returns (r: RiskAssessmentResult)
    ensures r == OutcomeAssessment(RagOutcomeOf(ragResponse, complete, decode), data, companyHash)
  {
    if ragResponse.None? || Strip(ragResponse.value) == "" {
      return FallbackAssessment(data.companyName, companyHash);
    }
    var response := complete(ParsingPrompt(ragResponse.value));
    r := InterpretReply(response, data, companyHash, decode);
  }

  /** The steps after the model call, with the fence stripper's loop: trim,
      unfence, decode, map. */
  method InterpretReply(response: Option<string>, data: BusinessRiskData, companyHash: int,
                        decode: string -> Option<Value>)
    returns (r: RiskAssessmentResult)
    ensures r == OutcomeAssessment(ReplyOutcome(response, decode), data, companyHash)
  {
    if response.None? {
      return FallbackAssessment(data.companyName, companyHash);
    }
    var responseContent := Strip(response.value);
    var cleanJson := StripCodeFence(responseContent);
    var parsed := decode(cleanJson);
    if parsed.Some? && parsed.value.Dict? {
      r := MapFields(parsed.value.entries, companyHash, data.businessId);
    } else {
      r := FallbackAssessment(data.companyName, companyHash);
    }
  }

  /** A reply that is a fenced JSON block reaches the decoder as the block's
      body, so an object decoded from the body is mapped. */
  lemma FencedReplyMapped(decode: string -> Option<Value>, body: seq<string>, entries: seq<(string, Value)>)
    requires forall k :: 0 <= k < |body| ==> '\n' !in body[k]
    requires decode(Join("\n", body)) == Some(Dict(entries))
    ensures ReplyOutcome(Some(Join("\n", [JsonFence] + body + [Fence])), decode) == Mapped(entries)
  {
    var lines := [JsonFence] + body + [Fence];
    FencedReplyStripped(body);
    FenceRoundTrip(body, []);
    assert lines + [] == lines;
    assert FenceStripped(Strip(Join("\n", lines))) == Join("\n", body);
  }

  /** A fenced block starts with a backtick and ends with one, so trimming
      leaves it whole. */
  lemma FencedReplyStripped(body: seq<string>)
    ensures Strip(Join("\n", [JsonFence] + body + [Fence])) == Join("\n", [JsonFence] + body + [Fence])
  {
    var lines := [JsonFence] + body + [Fence];
    var s := Join("\n", lines);
    FenceFacts();
    JoinKeepsPrefix(lines, JsonFence);
    assert s[0] == JsonFence[0] == '`';
    JoinAppend("\n", [JsonFence] + body, [Fence]);
    assert s == Join("\n", [JsonFence] + body) + "\n" + Fence;
    assert s[|s| - 1] == Fence[2] == '`';
    StripOfStripped(s);
  }
}
