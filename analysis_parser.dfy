/** `BusinessAnalysisService._parse_analysis_response`
    (app/business_analysis/service.py): turns the model's reply into a
    `BusinessAnalysis` in three tiers. Tier 1 reads `PREFIX: value` lines;
    tier 2 takes the first long paragraph as the overview when no overview
    line was found; tier 3 writes an overview from the raw request and fills
    the empty fields with fixed phrases when the overview is still short. An
    exception (only `location.strip()` on a non-string can raise) yields a fixed
    placeholder record. */
module AnalysisParser {
  import opened Wrappers
  import opened PyStr
  import opened PyValue
  import opened AnalysisRecords

  const IndustryPrefix := "INDUSTRY_CLASSIFICATION:"
  const PositionPrefix := "MARKET_POSITION:"
  const GrowthPrefix := "GROWTH_POTENTIAL:"
  const StrengthsPrefix := "STRENGTHS_ADVANTAGES:"
  const OpportunitiesPrefix := "MARKET_OPPORTUNITIES:"
  const RecommendationsPrefix := "STRATEGIC_RECOMMENDATIONS:"
  const OverviewPrefix := "BUSINESS_OVERVIEW:"

  /** The prefixes in the order the `elif` chain tests them; field `k` of an
      extraction belongs to prefix `k`, and field 6 is the overview. */
  const Prefixes: seq<string> := [IndustryPrefix, PositionPrefix, GrowthPrefix, StrengthsPrefix,
                                  OpportunitiesPrefix, RecommendationsPrefix, OverviewPrefix]
  const Fields := 7

  lemma PrefixesNonEmpty()
    ensures |Prefixes| == Fields
    ensures forall k :: 0 <= k < Fields ==> |Prefixes[k]| > 0
  {
  }

  /** The first prefix a trimmed line starts with, if any. */
  function Match(line: string): (r: Option<nat>)
    ensures r.Some? ==> r.value < Fields && StartsWith(line, Prefixes[r.value])
    ensures r.Some? ==> forall j :: 0 <= j < r.value ==> !StartsWith(line, Prefixes[j])
    ensures r.None? ==> forall j :: 0 <= j < Fields ==> !StartsWith(line, Prefixes[j])
  {
    if StartsWith(line, IndustryPrefix) then Some(0)
    else if StartsWith(line, PositionPrefix) then Some(1)
    else if StartsWith(line, GrowthPrefix) then Some(2)
    else if StartsWith(line, StrengthsPrefix) then Some(3)
    else if StartsWith(line, OpportunitiesPrefix) then Some(4)
    else if StartsWith(line, RecommendationsPrefix) then Some(5)
    else if StartsWith(line, OverviewPrefix) then Some(6)
    else None
  }

  /** `line.replace(PREFIX, "").strip()`: every copy of the prefix goes, not only
      the leading one. */
  function FieldValue(line: string, k: nat): string
    requires k < Fields
  {
    PrefixesNonEmpty();
    Strip(RemoveAll(line, Prefixes[k]))
  }

  /** With no later copy of the prefix, the value is the trimmed rest of the line. */
  lemma FieldValueOfPrefixed(k: nat, rest: string)
    requires k < Fields
    requires forall j :: 0 <= j <= |rest| ==> !OccursAt(rest, Prefixes[k], j)
    ensures FieldValue(Prefixes[k] + rest, k) == Strip(rest)
  {
    PrefixesNonEmpty();
    RemoveAllLeading(Prefixes[k], rest);
    RemoveAllAbsent(rest, Prefixes[k]);
  }

  /** The seven local accumulators of the tier-1 loop; field `k` belongs to prefix `k`. */
  datatype Extracted = Extracted(
    industryClassification: string,
    marketPosition: string,
    growthPotential: string,
    strengthsAdvantages: string,
    marketOpportunities: string,
    strategicRecommendations: string,
    businessOverview: string)

  const NoneFound := Extracted("", "", "", "", "", "", "")

  function Field(e: Extracted, k: nat): string
    requires k < Fields
  {
    match k
    case 0 => e.industryClassification
    case 1 => e.marketPosition
    case 2 => e.growthPotential
    case 3 => e.strengthsAdvantages
    case 4 => e.marketOpportunities
    case 5 => e.strategicRecommendations
    case _ => e.businessOverview
  }

  /** Overwrites accumulator `k` and no other. */
  function SetField(e: Extracted, k: nat, v: string): (r: Extracted)
    requires k < Fields
    ensures Field(r, k) == v
    ensures forall j :: 0 <= j < Fields && j != k ==> Field(r, j) == Field(e, j)
  {
    match k
    case 0 => e.(industryClassification := v)
    case 1 => e.(marketPosition := v)
    case 2 => e.(growthPotential := v)
    case 3 => e.(strengthsAdvantages := v)
    case 4 => e.(marketOpportunities := v)
    case 5 => e.(strategicRecommendations := v)
    case _ => e.(businessOverview := v)
  }

  /** A later copy of the prefix is removed too:
      `"MARKET_POSITION: a MARKET_POSITION: b"` gives `"a  b"`. */
  lemma SecondCopyRemoved(a: string, b: string)
    requires a == " a " && b == " b"
    ensures FieldValue(PositionPrefix + a + PositionPrefix + b, 1) == "a  b"
  {
    PrefixesNonEmpty();
    assert PositionPrefix[0] == 'M';
    assert |PositionPrefix| > |b|;
    RemoveSecondCopy(PositionPrefix, a, b);
    assert a + b == " a  b";
    StripSpaceA();
  }

  /** `(p + q + p + b).replace(p, "")` is `q + b` when no character of `q`
      starts `p` and `b` is shorter than `p`. */
  lemma RemoveSecondCopy(p: string, q: string, b: string)
    requires |p| > |b|
    requires forall i :: 0 <= i < |q| ==> q[i] != p[0]
    ensures RemoveAll(p + q + p + b, p) == q + b
  {
    var t := p + b;
    RemoveAllLeading(p, b);
    RemoveAllShort(b, p);
    var u := q + t;
    RemoveAllKeep(q, t, p);
    Regroup(p, q, b);
    RemoveAllLeading(p, u);
  }

  lemma Regroup(p: string, q: string, b: string)
    ensures p + q + p + b == p + (q + (p + b))
  {
  }

  lemma SplitFirst(q: string, x: string, y: string)
    requires q != []
    ensures q + x == [q[0]] + (q[1..] + x) && q + y == [q[0]] + (q[1..] + y)
  {
    assert q == [q[0]] + q[1..];
  }

  /** Text shorter than the pattern is kept whole. */
  lemma RemoveAllShort(s: string, p: string)
    requires |s| < |p|
    ensures RemoveAll(s, p) == s
  {
  }

  /** Text none of whose characters starts the pattern is kept whole. */
  lemma {:induction false} RemoveAllKeep(q: string, rest: string, p: string)
    requires |p| > 0
    requires forall i :: 0 <= i < |q| ==> q[i] != p[0]
    ensures RemoveAll(q + rest, p) == q + RemoveAll(rest, p)
    decreases |q|
  {
    if q != [] {
      var tail := q[1..];
      RemoveAllKeep(tail, rest, p);
      SplitFirst(q, rest, RemoveAll(rest, p));
      RemoveAllSkip(q[0], tail + rest, p);
    } else {
      assert q + rest == rest;
    }
  }

  /** A first character that cannot start the pattern is kept. */
  lemma RemoveAllSkip(c: char, rest: string, p: string)
    requires |p| > 0 && p[0] != c
    ensures RemoveAll([c] + rest, p) == [c] + RemoveAll(rest, p)
  {
    var s := [c] + rest;
    assert s[1..] == rest;
    if |s| >= |p| {
      assert s[..|p|] != p by { assert s[..|p|][0] == c; }
    }
  }

  lemma StripSpaceA()
    ensures Strip(" a  b") == "a  b"
  {
    var s := " a  b";
    assert SkipSpace(s, 0) == 1;
    assert TrimEnd(s, 1, 5) == 5;
    assert s[1..5] == "a  b";
  }

  /** `"INDUSTRY_CLASSIFICATION: Retail"` gives `"Retail"`. */
  lemma IndustryExample(rest: string)
    requires rest == " Retail"
    ensures FieldValue(IndustryPrefix + rest, 0) == "Retail"
  {
    FieldValueOfPrefixed(0, rest);
    StripRetail(rest);
  }

  lemma StripRetail(rest: string)
    requires rest == " Retail"
    ensures Strip(rest) == "Retail"
  {
    assert SkipSpace(rest, 1) == 1;
    assert TrimEnd(rest, 1, 7) == 7;
    assert rest[1..7] == "Retail";
  }

  /** One iteration of the tier-1 loop on a raw line. */
  function Step(fields: Extracted, raw: string): Extracted
  {
    var line := Strip(raw);
    match Match(line)
    case None => fields
    case Some(k) => SetField(fields, k, FieldValue(line, k))
  }

  /** The accumulators after the loop has seen `lines`, all starting empty. */
  function Tier1(lines: seq<string>): Extracted
  {
    if lines == [] then NoneFound
    else Step(Tier1(lines[..|lines| - 1]), lines[|lines| - 1])
  }

  lemma Tier1Snoc(lines: seq<string>, i: nat)
    requires i < |lines|
    ensures Tier1(lines[..i + 1]) == Step(Tier1(lines[..i]), lines[i])
  {
    assert lines[..i + 1][..i] == lines[..i];
  }

  /** `content.strip().split('\n')`. */
  function Lines(content: string): seq<string>
  {
    Split(Strip(content), "\n")
  }

  /** Tier 1, last match wins: a field holds the value of the last line that
      matches its prefix, whatever earlier lines said. */
  lemma {:induction false} Tier1LastWins(lines: seq<string>, i: nat, k: nat)
    requires i < |lines| && Match(Strip(lines[i])) == Some(k)
    requires forall j :: i < j < |lines| ==> Match(Strip(lines[j])) != Some(k)
    ensures Field(Tier1(lines), k) == FieldValue(Strip(lines[i]), k)
  {
    var front := lines[..|lines| - 1];
    if i < |lines| - 1 {
      assert forall j :: i < j < |front| ==> front[j] == lines[j];
      Tier1LastWins(front, i, k);
    }
  }

  /** Tier 1, no match: a field no line matches stays empty. */
  lemma {:induction false} Tier1Unmatched(lines: seq<string>, k: nat)
    requires k < Fields
    requires forall j :: 0 <= j < |lines| ==> Match(Strip(lines[j])) != Some(k)
    ensures Field(Tier1(lines), k) == ""
  {
    if lines != [] {
      var front := lines[..|lines| - 1];
      assert forall j :: 0 <= j < |front| ==> front[j] == lines[j];
      Tier1Unmatched(front, k);
    }
  }

  /** Lines that match no prefix change nothing. */
  lemma UnmatchedLineIgnored(lines: seq<string>, raw: string)
    requires Match(Strip(raw)) == None
    ensures Tier1(lines + [raw]) == Tier1(lines)
  {
    assert (lines + [raw])[..|lines|] == lines;
  }

  /** The paragraphs of tier 2: the `"\n\n"`-separated pieces, trimmed, longer
      than 30 characters, in order. */
  function LongOnes(paragraphs: seq<string>): (r: seq<string>)
    ensures forall k :: 0 <= k < |r| ==> |r[k]| > 30
  {
    if paragraphs == [] then []
    else
      var p := Strip(paragraphs[0]);
      (if |p| > 30 then [p] else []) + LongOnes(paragraphs[1..])
  }

  function LongParagraphs(content: string): seq<string>
  {
    LongOnes(Split(content, "\n\n"))
  }

  /** The first long paragraph is the first piece whose trimmed length exceeds 30. */
  lemma {:induction false} FirstLongParagraph(paragraphs: seq<string>, i: nat)
    requires i < |paragraphs| && |Strip(paragraphs[i])| > 30
    requires forall j :: 0 <= j < i ==> |Strip(paragraphs[j])| <= 30
    ensures LongOnes(paragraphs) != [] && LongOnes(paragraphs)[0] == Strip(paragraphs[i])
  {
    if i > 0 {
      assert forall j :: 0 <= j < i - 1 ==> paragraphs[1..][j] == paragraphs[j + 1];
      FirstLongParagraph(paragraphs[1..], i - 1);
    }
  }

  /** No piece is long: tier 2 finds nothing. */
  lemma {:induction false} NoLongParagraph(paragraphs: seq<string>)
    requires forall j :: 0 <= j < |paragraphs| ==> |Strip(paragraphs[j])| <= 30
    ensures LongOnes(paragraphs) == []
  {
    if paragraphs != [] {
      assert forall j :: 0 <= j < |paragraphs| - 1 ==> paragraphs[1..][j] == paragraphs[j + 1];
      NoLongParagraph(paragraphs[1..]);
    }
  }

  /** Tier 2: only an empty overview of a reply longer than 50 characters (once
      trimmed) is replaced, by the first long paragraph if there is one. */
  function Tier2(content: string, overview: string): (r: string)
    ensures overview != "" || |Strip(content)| <= 50 ==> r == overview
    ensures overview == "" && |Strip(content)| > 50
            ==> r == (if LongParagraphs(content) != [] then LongParagraphs(content)[0] else "")
    ensures r != overview ==> LongParagraphs(content) != [] && r == LongParagraphs(content)[0] && |r| > 30
  {
    if overview == "" && |Strip(content)| > 50 then
      var paragraphs := LongParagraphs(content);
      if paragraphs != [] then paragraphs[0] else overview
    else overview
  }

  /** The overview after tiers 1 and 2 (`business_overview.strip()` in between). */
  function Tier2Overview(content: string): string
  {
    Tier2(content, Strip(Tier1(Lines(content)).businessOverview))
  }

  /** What a conditional `+=` contributes: the part, or nothing. */
  function Clause(cond: bool, part: string): string {
    if cond then part else ""
  }

  /** `text += part` when `cond` holds. */
  function Append(text: string, cond: bool, part: string): (r: string)
    ensures StartsWith(r, text)
    ensures |r| == |text| + (if cond then |part| else 0)
    ensures r == text + Clause(cond, part)
  {
    ConcatEnds(text, part);
    assert text[..|text|] == text;
    if cond then text + part else text
  }

  const EstablishedText := " is an established business"
  const InThe := " in the "
  const Sector := " sector"
  const With := " with "
  const YearsText := " years of operational experience"
  const BasedIn := " based in "
  const UnknownYears := "Unknown"
  const DefaultName := "Company"

  const DefaultIndustry := "Business Services"
  const DefaultPosition := "Established market participant"
  const DefaultGrowth := "Moderate growth opportunities identified"
  const DefaultStrengths := "Operational experience and market presence"
  const DefaultOpportunities := "Market expansion and service diversification"
  const DefaultRecommendations := "Continue operational excellence and explore growth opportunities"

  function SynthName(bd: Input): Value {
    Get(bd, "companyName", Get(bd, "company", Str(DefaultName)))
  }

  function SynthYears(bd: Input): Value {
    Get(bd, "yearsInOperation", Get(bd, "yearsInBusiness", Str(UnknownYears)))
  }

  function SynthIndustry(bd: Input): Value {
    Get(bd, "industry", Str(""))
  }

  function SynthLocation(bd: Input): Value {
    Get(bd, "location", Str(""))
  }

  /** The tier-3 overview written from the raw request: the name, then the
      industry, the years unless they are the literal 'Unknown', the location
      unless it is blank, and a full stop. A location that is not a string has
      no `.strip()` and raises AttributeError. */
  function Synthesized(bd: Input): (r: Result<string>)
    ensures r.Success? <==> SynthLocation(bd).Str?
    ensures r.Failure? ==> r.error == AttributeError
    ensures r.Success? ==> r.value == Show(SynthName(bd)) + EstablishedText
                                      + Clause(Truthy(SynthIndustry(bd)), InThe + Show(SynthIndustry(bd)) + Sector)
                                      + Clause(SynthYears(bd) != Str(UnknownYears), With + Show(SynthYears(bd)) + YearsText)
                                      + Clause(Strip(SynthLocation(bd).s) != "", BasedIn + SynthLocation(bd).s)
                                      + "."
    ensures r.Success? ==> StartsWith(r.value, Show(SynthName(bd)) + EstablishedText)
    ensures r.Success? ==> EndsWith(r.value, ".") && |r.value| >= 28
  {
    var industry, years, location := SynthIndustry(bd), SynthYears(bd), SynthLocation(bd);
    var s0 := Show(SynthName(bd)) + EstablishedText;
    var s1 := Append(s0, Truthy(industry), InThe + Show(industry) + Sector);
    var s2 := Append(s1, years != Str(UnknownYears), With + Show(years) + YearsText);
    if !location.Str? then Failure(AttributeError)
    else
      var s3 := Append(s2, Strip(location.s) != "", BasedIn + location.s);
      ConcatEnds(s3, ".");
      StartsWithTrans(s0, s1, s2);
      StartsWithTrans(s0, s2, s3);
      StartsWithTrans(s0, s3, s3 + ".");
      Success(s3 + ".")
  }

  /** The tier-3 overview of a request with every part present; years are shown
      with `str()`. */
  lemma SynthesizedExample(bd: Input)
    requires bd == map["company" := Str("Acme Trucking"), "industry" := Str("Transportation"),
                       "yearsInBusiness" := Int(12), "location" := Str("Dallas, TX")]
    ensures Synthesized(bd) == Success(("Acme Trucking" + EstablishedText) + (InThe + "Transportation" + Sector)
                                       + (With + "12" + YearsText) + (BasedIn + "Dallas, TX") + ".")
    ensures SynthLocation(bd) == Str("Dallas, TX") && SynthIndustry(bd) == Str("Transportation")
  {
    assert SynthName(bd) == Str("Acme Trucking");
    assert SynthYears(bd) == Int(12) && SynthIndustry(bd) == Str("Transportation");
    assert SynthLocation(bd) == Str("Dallas, TX");
    ShowTwelve();
    DallasNotBlank("Dallas, TX");
  }

  lemma ShowTwelve()
    ensures Show(Int(12)) == "12"
  {
    assert NatToStr(12) == NatToStr(1) + [DigitChar(2)];
  }

  lemma DallasNotBlank(location: string)
    requires location == "Dallas, TX"
    ensures Strip(location) != ""
  {
    StripBlank(location);
    assert !IsSpace(location[0]);
  }

  /** `field or default`: an empty field gets its fixed phrase. */
  function OrElse(field: string, default: string): (r: string)
    ensures field != "" ==> r == field
    ensures field == "" ==> r == default
  {
    if field == "" then default else field
  }

  /** The tier-3 fill-ins of the six non-overview fields: the industry falls back
      to the request's industry, or "Business Services" when that is falsy. */
  function FillIn(e: Extracted, industry: Value): (r: Extracted)
    ensures r.businessOverview == e.businessOverview
    ensures forall k :: 0 <= k < 6 ==> Field(r, k) != ""
    ensures forall k :: 0 <= k < 6 && Field(e, k) != "" ==> Field(r, k) == Field(e, k)
    ensures e.industryClassification == ""
            ==> r.industryClassification == (if Truthy(industry) then Show(industry) else DefaultIndustry)
    ensures e.marketPosition == "" ==> r.marketPosition == DefaultPosition
    ensures e.growthPotential == "" ==> r.growthPotential == DefaultGrowth
    ensures e.strengthsAdvantages == "" ==> r.strengthsAdvantages == DefaultStrengths
    ensures e.marketOpportunities == "" ==> r.marketOpportunities == DefaultOpportunities
    ensures e.strategicRecommendations == "" ==> r.strategicRecommendations == DefaultRecommendations
  {
    Extracted(
      OrElse(e.industryClassification, if Truthy(industry) then Show(industry) else DefaultIndustry),
      OrElse(e.marketPosition, DefaultPosition),
      OrElse(e.growthPotential, DefaultGrowth),
      OrElse(e.strengthsAdvantages, DefaultStrengths),
      OrElse(e.marketOpportunities, DefaultOpportunities),
      OrElse(e.strategicRecommendations, DefaultRecommendations),
      e.businessOverview)
  }

  /** The `BusinessAnalysis` built from the accumulators and the final overview. */
  function Record(e: Extracted, overview: string, id: string): (r: BusinessAnalysis)
    ensures r.analysisId == id && r.businessOverview == overview
    ensures Found(r) == e.(businessOverview := overview)
    ensures forall k :: 0 <= k < 6 ==> Field(Found(r), k) == Field(e, k)
  {
    BusinessAnalysis(e.industryClassification, e.marketPosition, e.growthPotential,
                     e.strengthsAdvantages, e.marketOpportunities, e.strategicRecommendations,
                     overview, id)
  }

  /** The seven text fields of an analysis, in prefix order. */
  function Found(a: BusinessAnalysis): Extracted
  {
    Extracted(a.industryClassification, a.marketPosition, a.growthPotential,
              a.strengthsAndAdvantages, a.marketOpportunities, a.strategicRecommendations,
              a.businessOverview)
  }

  const PendingPosition := "Market analysis pending"
  const PendingGrowth := "Growth assessment in progress"
  const PendingStrengths := "Competitive analysis pending"
  const PendingOpportunities := "Opportunity identification in progress"
  const PendingRecommendations := "Strategic analysis pending"
  const PendingOverview := "Business analysis completed with available data."

  /** The record returned when parsing raises: fixed texts and the caller's id. */
  function Placeholder(id: string): (r: BusinessAnalysis)
    ensures r.analysisId == id && AllFieldsFilled(r)
  {
    BusinessAnalysis(DefaultIndustry, PendingPosition, PendingGrowth, PendingStrengths,
                     PendingOpportunities, PendingRecommendations, PendingOverview, id)
  }

  /** Tier 3 runs when the overview is empty or shorter than 20 characters. */
  predicate TooShort(overview: string) {
    overview == "" || |overview| < 20
  }

  /** The end of `_parse_analysis_response` once tiers 1 and 2 have produced
      `fields` and `overview`: tier 3 when the overview is too short (the
      placeholder if it raises), then the record. Every outcome has the caller's
      id and an overview of at least 20 characters; after tier 3 every field is
      filled, and without it the fields are those tier 1 found, empty or not. */
  function Conclude(fields: Extracted, overview: string, bd: Input, id: string): (r: BusinessAnalysis)
    ensures r.analysisId == id && |r.businessOverview| >= 20
    ensures TooShort(overview) ==> AllFieldsFilled(r)
    ensures TooShort(overview) && !SynthLocation(bd).Str? ==> r == Placeholder(id)
    ensures TooShort(overview) && SynthLocation(bd).Str?
            ==> r == Record(FillIn(fields, SynthIndustry(bd)), Synthesized(bd).value, id)
    ensures !TooShort(overview) ==> Found(r) == fields.(businessOverview := overview)
  {
    if TooShort(overview) then
      match Synthesized(bd)
      case Failure(_) =>
        assert |PendingOverview| >= 20;
        Placeholder(id)
      case Success(text) =>
        var filled := FillIn(fields, SynthIndustry(bd));
        assert Field(filled, 0) != "" && Field(filled, 1) != "" && Field(filled, 2) != "";
        assert Field(filled, 3) != "" && Field(filled, 4) != "" && Field(filled, 5) != "";
        Record(filled, text, id)
    else Record(fields, overview, id)
  }

  /** Tier 3 never overwrites a field tier 1 found (unless the placeholder replaces everything). */
  lemma FoundFieldKept(fields: Extracted, overview: string, bd: Input, id: string, k: nat)
    requires k < 6 && Field(fields, k) != ""
    requires !TooShort(overview) || SynthLocation(bd).Str?
    ensures Field(Found(Conclude(fields, overview, bd, id)), k) == Field(fields, k)
  {
    var filled := FillIn(fields, SynthIndustry(bd));
    if TooShort(overview) {
      assert Conclude(fields, overview, bd, id) == Record(filled, Synthesized(bd).value, id);
    } else {
      assert Conclude(fields, overview, bd, id) == Record(fields, overview, id);
    }
  }

  /** What `_parse_analysis_response` returns. */
  function ParsedAnalysis(content: string, bd: Input, id: string): (r: BusinessAnalysis)
    ensures r.analysisId == id && |r.businessOverview| >= 20
    ensures !TooShort(Tier2Overview(content))
            ==> Found(r) == Tier1(Lines(content)).(businessOverview := Tier2Overview(content))
    ensures TooShort(Tier2Overview(content)) && !SynthLocation(bd).Str? ==> r == Placeholder(id)
    ensures TooShort(Tier2Overview(content)) && SynthLocation(bd).Str?
            ==> r == Record(FillIn(Tier1(Lines(content)), SynthIndustry(bd)), Synthesized(bd).value, id)
  {
    Conclude(Tier1(Lines(content)), Tier2Overview(content), bd, id)
  }

  /** A short reply with no recognised line: the overview is the sentence
      written from the request, and the industry is the request's. */
  lemma ShortReplyExample(content: string, bd: Input, id: string)
    requires content == "OK"
    requires bd == map["company" := Str("Acme Trucking"), "industry" := Str("Transportation"),
                       "yearsInBusiness" := Int(12), "location" := Str("Dallas, TX")]
    ensures ParsedAnalysis(content, bd, id).businessOverview
            == ("Acme Trucking" + EstablishedText) + (InThe + "Transportation" + Sector)
               + (With + "12" + YearsText) + (BasedIn + "Dallas, TX") + "."
    ensures ParsedAnalysis(content, bd, id).industryClassification == "Transportation"
    ensures ParsedAnalysis(content, bd, id).marketPosition == DefaultPosition
  {
    ShortReplyNothingFound(content);
    SynthesizedExample(bd);
    NothingFoundSynthesized(content, bd, id);
  }

  /** When tiers 1 and 2 find nothing, the parse result carries the
      synthesized overview and the tier-3 fill-ins. */
  lemma NothingFoundSynthesized(content: string, bd: Input, id: string)
    requires Tier1(Lines(content)) == NoneFound && Tier2Overview(content) == ""
    requires SynthLocation(bd).Str?
    ensures ParsedAnalysis(content, bd, id).businessOverview == Synthesized(bd).value
    ensures ParsedAnalysis(content, bd, id).industryClassification
            == (if Truthy(SynthIndustry(bd)) then Show(SynthIndustry(bd)) else DefaultIndustry)
    ensures ParsedAnalysis(content, bd, id).marketPosition == DefaultPosition
  {
    assert TooShort(Tier2Overview(content));
  }

  /** `"OK"` matches no prefix and is too short for tier 2. */
  lemma ShortReplyNothingFound(content: string)
    requires content == "OK"
    ensures Tier1(Lines(content)) == NoneFound && Tier2Overview(content) == ""
  {
    assert Strip(content) == "OK";
    assert Lines(content) == ["OK"];
    assert Match("OK") == None;
  }

  /** `_parse_analysis_response`: the loop over the trimmed lines, then tiers 2 and 3. */
  method ParseAnalysisResponse(content: string, businessData: Input, analysisId: string)
    returns (a: BusinessAnalysis)
    ensures a == ParsedAnalysis(content, businessData, analysisId)
  {
    var fields := ExtractFields(Lines(content));
    var overview := Strip(fields.businessOverview);
    if overview == "" && |Strip(content)| > 50 {
      var paragraphs := LongParagraphs(content);
      if paragraphs != [] {
        overview := paragraphs[0];
      }
    }
    if TooShort(overview) {
      var text := SynthesizeOverview(businessData);
      if text.Failure? {
        return Placeholder(analysisId);
      }
      var filled := FillInFields(fields, SynthIndustry(businessData));
      return Record(filled, text.value, analysisId);
    }
    return Record(fields, overview, analysisId);
  }

  /** The tier-1 loop over the lines. */
  method ExtractFields(lines: seq<string>) returns (fields: Extracted)
    ensures fields == Tier1(lines)
  {
    fields := NoneFound;
    var i := 0;
    while i < |lines|
      invariant 0 <= i <= |lines|
      invariant fields == Tier1(lines[..i])
    {
      Tier1Snoc(lines, i);
      fields := ExtractLine(fields, lines[i]);
      i := i + 1;
    }
    assert lines[..i] == lines;
  }

  /** One pass of the loop body: the seven accumulators, the trimmed line, and
      the `elif` chain that overwrites the accumulator of the first matching prefix. */
  method ExtractLine(fields: Extracted, raw: string) returns (r: Extracted)
    ensures r == Step(fields, raw)
  {
    var industry, position, growth := fields.industryClassification, fields.marketPosition, fields.growthPotential;
    var strengths, opportunities := fields.strengthsAdvantages, fields.marketOpportunities;
    var recommendations, overview := fields.strategicRecommendations, fields.businessOverview;
    var line := Strip(raw);
    if StartsWith(line, IndustryPrefix) {
      industry := FieldValue(line, 0);
    } else if StartsWith(line, PositionPrefix) {
      position := FieldValue(line, 1);
    } else if StartsWith(line, GrowthPrefix) {
      growth := FieldValue(line, 2);
    } else if StartsWith(line, StrengthsPrefix) {
      strengths := FieldValue(line, 3);
    } else if StartsWith(line, OpportunitiesPrefix) {
      opportunities := FieldValue(line, 4);
    } else if StartsWith(line, RecommendationsPrefix) {
      recommendations := FieldValue(line, 5);
    } else if StartsWith(line, OverviewPrefix) {
      overview := FieldValue(line, 6);
    }
    r := Extracted(industry, position, growth, strengths, opportunities, recommendations, overview);
  }

  /** The tier-3 overview, grown with `+=`; `location.strip()` raises on a non-string. */
  method SynthesizeOverview(businessData: Input) returns (r: Result<string>)
    ensures r == Synthesized(businessData)
  {
    var name, years := SynthName(businessData), SynthYears(businessData);
    var location, industry := SynthLocation(businessData), SynthIndustry(businessData);
    var text := Show(name) + EstablishedText;
    if Truthy(industry) {
      text := text + (InThe + Show(industry) + Sector);
    }
    if years != Str(UnknownYears) {
      text := text + (With + Show(years) + YearsText);
    }
    if !location.Str? {
      return Failure(AttributeError);
    }
    if Strip(location.s) != "" {
      text := text + (BasedIn + location.s);
    }
    return Success(text + ".");
  }

  /** The tier-3 `if not field: field = ...` assignments. */
  method FillInFields(fields: Extracted, industry: Value) returns (r: Extracted)
    ensures r == FillIn(fields, industry)
  {
    r := fields;
    if r.industryClassification == "" {
      r := r.(industryClassification := if Truthy(industry) then Show(industry) else DefaultIndustry);
    }
    assert r == fields.(industryClassification := FillIn(fields, industry).industryClassification);
    if r.marketPosition == "" {
      r := r.(marketPosition := DefaultPosition);
    }
    if r.growthPotential == "" {
      r := r.(growthPotential := DefaultGrowth);
    }
    if r.strengthsAdvantages == "" {
      r := r.(strengthsAdvantages := DefaultStrengths);
    }
    if r.marketOpportunities == "" {
      r := r.(marketOpportunities := DefaultOpportunities);
    }
    if r.strategicRecommendations == "" {
      r := r.(strategicRecommendations := DefaultRecommendations);
    }
  }

}
