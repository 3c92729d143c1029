/** `BusinessAnalysisService._create_analysis_prompt`
    (app/business_analysis/service.py): the user message sent to the model, built
    line by line from a `BusinessData` record and joined with newlines. The
    overview section is always present; the financial, market, products and
    additional-information sections appear only when one of their fields is
    truthy, and each present section ends with an empty line. */
module AnalysisPrompt {
  import opened Wrappers
  import opened PyStr
  import opened PyValue
  import opened AnalysisRecords

  const Intro := "ANALYZE THIS BUSINESS FOR COMPREHENSIVE STRATEGIC INTELLIGENCE:\n"
  const OverviewHeader := "=== COMPANY OVERVIEW ==="
  const FinancialHeader := "=== FINANCIAL PROFILE ==="
  const MarketHeader := "=== MARKET INFORMATION ==="
  const ProductsHeader := "=== PRODUCTS & SERVICES ==="
  const AdditionalHeader := "=== ADDITIONAL INFORMATION ==="

  /** The fixed closing instructions of every prompt. */
  const Closing: seq<string> := [
    "=== STRATEGIC ANALYSIS REQUIRED ===",
    "Provide a comprehensive business intelligence analysis covering:",
    "1. Industry classification and positioning",
    "2. Current market position and competitive landscape",
    "3. Growth potential and expansion opportunities",
    "4. Key business strengths and competitive advantages",
    "5. Market opportunities and emerging trends",
    "6. Strategic recommendations for business development",
    "7. Overall business assessment and outlook",
    "Use ONLY the information provided above."]

  /** A body line: either the empty line that closes a section or a line with
      a colon (every `Tag: value` line has one). No section header is plain. */
  predicate Plain(line: string) {
    line == "" || ':' in line
  }

  /** Every line after the first is plain. */
  predicate Body(section: seq<string>) {
    forall k :: 1 <= k < |section| ==> Plain(section[k])
  }

  /** A section as `_create_analysis_prompt` emits it: nothing, or its header,
      plain lines, and the empty line that closes it. */
  predicate Shaped(section: seq<string>, header: string) {
    section == [] || (|section| >= 2 && section[0] == header && Body(section) && section[|section| - 1] == "")
  }

  /** `tag + ": " + rest`, which always has a colon. */
  function Line(tag: string, rest: string): (r: string)
    ensures Plain(r)
    ensures |r| > |tag| && (|tag| > 0 ==> r[0] == tag[0])
  {
    var r := tag + ": " + rest;
    assert r[|tag|] == ':';
    r
  }

  /** `if cond: lines.append(line)`. */
  function Add(lines: seq<string>, cond: bool, line: string): (r: seq<string>)
    requires lines != []
    ensures r != [] && r[0] == lines[0]
    ensures cond ==> r == lines + [line]
    ensures !cond ==> r == lines
    ensures Body(lines) && Plain(line) ==> Body(r)
  {
    if cond then
      var r := lines + [line];
      assert forall k :: 1 <= k < |lines| ==> r[k] == lines[k];
      r
    else lines
  }

  /** The closing empty line of a section. */
  function Close(lines: seq<string>): (r: seq<string>)
    requires lines != []
    ensures |r| >= 2 && r[0] == lines[0] && r[|r| - 1] == ""
    ensures Body(lines) ==> Body(r)
    ensures r == lines + [""]
  {
    Add(lines, true, "")
  }

  /** The company overview. `location.strip()` raises AttributeError when the
      location is not a string; a blank location is left out. */
  function OverviewLines(d: BusinessData): (r: Result<seq<string>>)
    ensures r.Success? <==> d.location.Str?
    ensures r.Success? ==> r.value != [] && Shaped(r.value, OverviewHeader)
  {
    if !d.location.Str? then Failure(AttributeError)
    else
      var s := [OverviewHeader];
      var s := Add(s, Truthy(d.companyName), Line("Company Name", Show(d.companyName)));
      var s := Add(s, Truthy(d.industry), Line("Industry", Show(d.industry)));
      var s := Add(s, Truthy(d.businessType), Line("Business Type", Show(d.businessType)));
      var s := Add(s, Strip(d.location.s) != "", Line("Location", d.location.s));
      var s := Add(s, Truthy(d.yearsInOperation), Line("Years in Operation", Show(d.yearsInOperation)));
      var s := Add(s, Truthy(d.employeeCount), Line("Employee Count", Show(d.employeeCount)));
      Success(Close(s))
  }

  /** `if value: lines.append(f"{tag}: ${value:,.2f}")`. */
  function AddMoney(lines: seq<string>, tag: string, v: Value): (r: Result<seq<string>>)
    requires lines != []
    ensures r.Success? <==> !Truthy(v) || v.Int? || v.Bool?
    ensures r.Failure? ==> r.error == Money(v).error
    ensures r.Success? ==> r.value != [] && r.value[0] == lines[0] && (Body(lines) ==> Body(r.value))
  {
    if Truthy(v) then
      var m :- Money(v);
      Success(Add(lines, true, Line(tag, "$" + m)))
    else Success(lines)
  }

  /** The financial profile, present when revenue, assets or credit rating is truthy.
      Formatting a string amount raises ValueError; any other non-number, TypeError. */
  function FinancialLines(d: BusinessData): (r: Result<seq<string>>)
    ensures r.Success? ==> Shaped(r.value, FinancialHeader)
    ensures r.Success? ==> (r.value != [] <==> Truthy(d.annualRevenue) || Truthy(d.totalAssets) || Truthy(d.creditRating))
  {
    if Truthy(d.annualRevenue) || Truthy(d.totalAssets) || Truthy(d.creditRating) then
      var s := [FinancialHeader];
      var s :- AddMoney(s, "Annual Revenue", d.annualRevenue);
      var s :- AddMoney(s, "Total Assets", d.totalAssets);
      var s := Add(s, Truthy(d.creditRating), Line("Credit Rating", Show(d.creditRating)));
      Success(Close(s))
    else Success([])
  }

  /** `if value: lines.append(f"{tag}: {', '.join(value)}")`. */
  function AddJoined(lines: seq<string>, tag: string, v: Value): (r: Result<seq<string>>)
    requires lines != []
    ensures !Truthy(v) ==> r == Success(lines)
    ensures Truthy(v) ==> (r.Success? <==> JoinValue(", ", v).Success?)
    ensures r.Failure? ==> r.error == JoinValue(", ", v).error
    ensures r.Success? ==> r.value != [] && r.value[0] == lines[0] && (Body(lines) ==> Body(r.value))
  {
    if Truthy(v) then
      var joined :- JoinValue(", ", v);
      Success(Add(lines, true, Line(tag, joined)))
    else Success(lines)
  }

  /** The market information, present when markets, advantages or the business
      model is truthy. Joining a value whose items are not strings raises TypeError. */
  function MarketLines(d: BusinessData): (r: Result<seq<string>>)
    ensures r.Success? ==> Shaped(r.value, MarketHeader)
    ensures r.Success? ==> (r.value != [] <==> Truthy(d.primaryMarkets) || Truthy(d.competitiveAdvantages) || Truthy(d.businessModel))
  {
    if Truthy(d.primaryMarkets) || Truthy(d.competitiveAdvantages) || Truthy(d.businessModel) then
      var s := [MarketHeader];
      var s :- AddJoined(s, "Primary Markets", d.primaryMarkets);
      var s :- AddJoined(s, "Competitive Advantages", d.competitiveAdvantages);
      var s := Add(s, Truthy(d.businessModel), Line("Business Model", Show(d.businessModel)));
      Success(Close(s))
    else Success([])
  }

  /** What a product contributes: a dict's `description` (or the dict's `str`
      when it has none), any other value's `str`. */
  function ProductText(p: Value): Value
  {
    if p.Dict? then Lookup(p.entries, "description").GetOr(Str(Show(p))) else Str(Show(p))
  }

  function ProductTexts(products: seq<Value>): (r: seq<Value>)
    ensures |r| == |products| && forall k :: 0 <= k < |r| ==> r[k] == ProductText(products[k])
  {
    seq(|products|, k requires 0 <= k < |products| => ProductText(products[k]))
  }

  /** The key-products line. Iterating a value that is not iterable raises
      TypeError, and so does joining a description that is not a string. */
  function AddProducts(lines: seq<string>, keyProducts: Value): (r: Result<seq<string>>)
    requires lines != []
    ensures !Truthy(keyProducts) ==> r == Success(lines)
    ensures r.Failure? ==> r.error == TypeError
    ensures r.Success? ==> r.value != [] && r.value[0] == lines[0] && (Body(lines) ==> Body(r.value))
    ensures Truthy(keyProducts) && r.Success? ==> |r.value| == |lines| + 1
  {
    if Truthy(keyProducts) then
      var products :- Iterate(keyProducts);
      var texts := ProductTexts(products);
      if texts == [] then Success(lines)
      else match Strings(texts)
        case None => Failure(TypeError)
        case Some(names) => Success(Add(lines, true, Line("Key Products/Services", Join(", ", names))))
    else Success(lines)
  }

  /** Products and services, present when key products or recent developments are truthy. */
  function ProductLines(d: BusinessData): (r: Result<seq<string>>)
    ensures r.Success? ==> Shaped(r.value, ProductsHeader)
    ensures r.Success? ==> (r.value != [] <==> Truthy(d.keyProducts) || Truthy(d.recentDevelopments))
  {
    if Truthy(d.keyProducts) || Truthy(d.recentDevelopments) then
      var s := [ProductsHeader];
      var s :- AddProducts(s, d.keyProducts);
      var s := Add(s, Truthy(d.recentDevelopments), Line("Recent Developments", Show(d.recentDevelopments)));
      Success(Close(s))
    else Success([])
  }

  /** `f"{key}: {value}"` for one entry of the additional information. */
  function EntryLine(entry: (string, Value)): (r: string)
    ensures Plain(r)
  {
    Line(entry.0, Show(entry.1))
  }

  function EntryLines(entries: seq<(string, Value)>): (r: seq<string>)
    ensures |r| == |entries| && forall k :: 0 <= k < |r| ==> r[k] == EntryLine(entries[k])
  {
    seq(|entries|, k requires 0 <= k < |entries| => EntryLine(entries[k]))
  }

  /** The lines of the additional information: a truthy value without
      `.items()` (anything but a dict) raises AttributeError. */
  function AddInfo(lines: seq<string>, info: Value): (r: Result<seq<string>>)
    requires lines != []
    ensures r.Success? <==> !Truthy(info) || info.Dict?
    ensures r.Failure? ==> r.error == AttributeError
    ensures r.Success? ==> r.value != [] && r.value[0] == lines[0] && (Body(lines) ==> Body(r.value))
    ensures r.Success? ==> r.value == lines + (if Truthy(info) then EntryLines(info.entries) else [])
  {
    if Truthy(info) then
      if info.Dict? then
        var r := lines + EntryLines(info.entries);
        assert forall k :: 1 <= k < |r| ==> r[k] == if k < |lines| then lines[k] else EntryLine(info.entries[k - |lines|]);
        Success(r)
      else Failure(AttributeError)
    else Success(lines)
  }

  /** Additional information, present when the additional info or the legacy
      `documents` field is truthy; the documents themselves are never listed. */
  function AdditionalLines(d: BusinessData): (r: Result<seq<string>>)
    ensures r.Success? ==> Shaped(r.value, AdditionalHeader)
    ensures r.Success? ==> (r.value != [] <==> Truthy(d.additionalInfo) || Truthy(d.legacyFields.documents))
  {
    if Truthy(d.additionalInfo) || Truthy(d.legacyFields.documents) then
      var s := [AdditionalHeader];
      var s :- AddInfo(s, d.additionalInfo);
      Success(Close(s))
    else Success([])
  }

  /** The lines of the prompt, sections in source order; the first section
      that raises decides the error. */
  function PromptLines(d: BusinessData): Result<seq<string>>
  {
    var overview :- OverviewLines(d);
    var financial :- FinancialLines(d);
    var market :- MarketLines(d);
    var products :- ProductLines(d);
    var additional :- AdditionalLines(d);
    Success([Intro] + overview + financial + market + products + additional + Closing)
  }

  /** `"\n".join(prompt_parts)`. */
  function AnalysisPrompt(d: BusinessData): Result<string>
  {
    var lines :- PromptLines(d);
    Success(Join("\n", lines))
  }

  /** A section holds its own header exactly when it is present. */
  lemma HeaderOfSection(section: seq<string>, header: string)
    requires Shaped(section, header)
    ensures header in section <==> section != []
  {
    if section != [] { assert section[0] == header; }
  }

  /** A section never holds another section's header: its first line is its own
      header and the others are plain. */
  lemma OtherHeader(section: seq<string>, header: string, other: string)
    requires Shaped(section, header) && other != header && !Plain(other)
    ensures other !in section
  {
    forall k | 0 <= k < |section|
      ensures section[k] != other
    {
      if k > 0 { assert Plain(section[k]); }
    }
  }

  lemma OverviewHeaderFacts()
    ensures !Plain(OverviewHeader)
  {
  }

  lemma FinancialHeaderFacts()
    ensures !Plain(FinancialHeader) && FinancialHeader != Intro && FinancialHeader !in Closing
  {
  }

  lemma MarketHeaderFacts()
    ensures !Plain(MarketHeader) && MarketHeader != Intro && MarketHeader !in Closing
  {
  }

  lemma ProductsHeaderFacts()
    ensures !Plain(ProductsHeader) && ProductsHeader != Intro && ProductsHeader !in Closing
  {
  }

  lemma AdditionalHeaderFacts()
    ensures !Plain(AdditionalHeader) && AdditionalHeader != Intro && AdditionalHeader !in Closing
  {
  }

  lemma FrameOf(intro: string, ov: seq<string>, fin: seq<string>, mkt: seq<string>,
                prod: seq<string>, add: seq<string>, closing: seq<string>)
    requires ov != []
    ensures var lines := [intro] + ov + fin + mkt + prod + add + closing;
      && |lines| >= 2 + |closing| && lines[0] == intro && lines[1] == ov[0]
      && lines[|lines| - |closing|..] == closing
  {
    var head := [intro] + ov + fin + mkt + prod + add;
    assert (head + closing)[|head|..] == closing;
  }

  /** The prompt starts with the intro and the overview header and ends with the
      closing instructions. */
  lemma PromptFrame(d: BusinessData)
    requires PromptLines(d).Success?
    ensures var lines := PromptLines(d).value;
      && |lines| >= 2 + |Closing| && lines[0] == Intro && lines[1] == OverviewHeader
      && lines[|lines| - |Closing|..] == Closing
  {
    var ov, fin, mkt := OverviewLines(d).value, FinancialLines(d).value, MarketLines(d).value;
    var prod, add := ProductLines(d).value, AdditionalLines(d).value;
    assert PromptLines(d).value == [Intro] + ov + fin + mkt + prod + add + Closing;
    FrameOf(Intro, ov, fin, mkt, prod, add, Closing);
  }

  /** The financial header is in the prompt exactly when revenue, assets or the
      credit rating is truthy. */
  lemma FinancialInPrompt(d: BusinessData)
    requires PromptLines(d).Success?
    ensures FinancialHeader in PromptLines(d).value
            <==> Truthy(d.annualRevenue) || Truthy(d.totalAssets) || Truthy(d.creditRating)
  {
    var ov, fin, mkt := OverviewLines(d).value, FinancialLines(d).value, MarketLines(d).value;
    var prod, add := ProductLines(d).value, AdditionalLines(d).value;
    assert PromptLines(d).value == [Intro] + ov + fin + mkt + prod + add + Closing;
    FinancialHeaderFacts();
    OtherHeader(ov, OverviewHeader, FinancialHeader);
    HeaderOfSection(fin, FinancialHeader);
    OtherHeader(mkt, MarketHeader, FinancialHeader);
    OtherHeader(prod, ProductsHeader, FinancialHeader);
    OtherHeader(add, AdditionalHeader, FinancialHeader);
  }

  /** The market header is in the prompt exactly when markets, advantages or the
      business model is truthy. */
  lemma MarketInPrompt(d: BusinessData)
    requires PromptLines(d).Success?
    ensures MarketHeader in PromptLines(d).value
            <==> Truthy(d.primaryMarkets) || Truthy(d.competitiveAdvantages) || Truthy(d.businessModel)
  {
    var ov, fin, mkt := OverviewLines(d).value, FinancialLines(d).value, MarketLines(d).value;
    var prod, add := ProductLines(d).value, AdditionalLines(d).value;
    assert PromptLines(d).value == [Intro] + ov + fin + mkt + prod + add + Closing;
    MarketHeaderFacts();
    OtherHeader(ov, OverviewHeader, MarketHeader);
    OtherHeader(fin, FinancialHeader, MarketHeader);
    HeaderOfSection(mkt, MarketHeader);
    OtherHeader(prod, ProductsHeader, MarketHeader);
    OtherHeader(add, AdditionalHeader, MarketHeader);
  }

  /** The products header is in the prompt exactly when key products or recent
      developments are truthy. */
  lemma ProductsInPrompt(d: BusinessData)
    requires PromptLines(d).Success?
    ensures ProductsHeader in PromptLines(d).value
            <==> Truthy(d.keyProducts) || Truthy(d.recentDevelopments)
  {
    var ov, fin, mkt := OverviewLines(d).value, FinancialLines(d).value, MarketLines(d).value;
    var prod, add := ProductLines(d).value, AdditionalLines(d).value;
    assert PromptLines(d).value == [Intro] + ov + fin + mkt + prod + add + Closing;
    ProductsHeaderFacts();
    OtherHeader(ov, OverviewHeader, ProductsHeader);
    OtherHeader(fin, FinancialHeader, ProductsHeader);
    OtherHeader(mkt, MarketHeader, ProductsHeader);
    HeaderOfSection(prod, ProductsHeader);
    OtherHeader(add, AdditionalHeader, ProductsHeader);
  }

  /** The additional-information header is in the prompt exactly when the
      additional info or the legacy documents are truthy. */
  lemma AdditionalInPrompt(d: BusinessData)
    requires PromptLines(d).Success?
    ensures AdditionalHeader in PromptLines(d).value
            <==> Truthy(d.additionalInfo) || Truthy(d.legacyFields.documents)
  {
    var ov, fin, mkt := OverviewLines(d).value, FinancialLines(d).value, MarketLines(d).value;
    var prod, add := ProductLines(d).value, AdditionalLines(d).value;
    assert PromptLines(d).value == [Intro] + ov + fin + mkt + prod + add + Closing;
    AdditionalHeaderFacts();
    OtherHeader(ov, OverviewHeader, AdditionalHeader);
    OtherHeader(fin, FinancialHeader, AdditionalHeader);
    OtherHeader(mkt, MarketHeader, AdditionalHeader);
    OtherHeader(prod, ProductsHeader, AdditionalHeader);
    HeaderOfSection(add, AdditionalHeader);
  }

  /** With documents but no additional info the header is followed directly by
      the empty line: the documents are never listed. */
  lemma DocumentsOnlyHeader(d: BusinessData)
    requires !Truthy(d.additionalInfo) && Truthy(d.legacyFields.documents)
    ensures AdditionalLines(d) == Success([AdditionalHeader, ""])
  {
    assert AddInfo([AdditionalHeader], d.additionalInfo) == Success([AdditionalHeader]);
    assert Close([AdditionalHeader]) == [AdditionalHeader, ""];
  }

  /** A location that is not a string fails the whole prompt with AttributeError. */
  lemma LocationNotString(d: BusinessData)
    requires !d.location.Str?
    ensures AnalysisPrompt(d) == Failure(AttributeError)
  {
  }

  /** A non-empty string revenue fails the prompt with ValueError (when the
      location is a string, so the overview succeeds). */
  lemma StringRevenue(d: BusinessData)
    requires d.location.Str? && d.annualRevenue.Str? && d.annualRevenue.s != ""
    ensures AnalysisPrompt(d) == Failure(ValueError)
  {
    assert OverviewLines(d).Success?;
    assert AddMoney([FinancialHeader], "Annual Revenue", d.annualRevenue) == Failure(ValueError);
    assert FinancialLines(d) == Failure(ValueError);
  }

  /** The location line is written exactly when the location is not blank
      after stripping; no other overview line starts like it. */
  lemma LocationLine(d: BusinessData)
    requires d.location.Str?
    ensures Line("Location", d.location.s) in OverviewLines(d).value <==> Strip(d.location.s) != ""
  {
    var loc := Line("Location", d.location.s);
    var name := Line("Company Name", Show(d.companyName));
    var industry := Line("Industry", Show(d.industry));
    var btype := Line("Business Type", Show(d.businessType));
    var years := Line("Years in Operation", Show(d.yearsInOperation));
    var count := Line("Employee Count", Show(d.employeeCount));
    assert loc[0] == 'L' && name[0] == 'C' && industry[0] == 'I' && btype[0] == 'B';
    assert years[0] == 'Y' && count[0] == 'E' && OverviewHeader[0] == '=';
    var s1 := Add([OverviewHeader], Truthy(d.companyName), name);
    var s2 := Add(s1, Truthy(d.industry), industry);
    var s3 := Add(s2, Truthy(d.businessType), btype);
    assert loc !in s3;
    var s4 := Add(s3, Strip(d.location.s) != "", loc);
    assert loc in s4 <==> Strip(d.location.s) != "";
    var s5 := Add(s4, Truthy(d.yearsInOperation), years);
    var s6 := Add(s5, Truthy(d.employeeCount), count);
    assert OverviewLines(d).value == Close(s6);
  }

  /** Truthy additional information that is not a dict has no `.items()`. */
  lemma InfoNotDict(d: BusinessData)
    requires Truthy(d.additionalInfo) && !d.additionalInfo.Dict?
    ensures AdditionalLines(d) == Failure(AttributeError)
  {
  }

  /** `_create_analysis_prompt`: appends the lines section by section and
      joins them with newlines. */
  method CreateAnalysisPrompt(data: BusinessData) returns (r: Result<string>)
    ensures r == AnalysisPrompt(data)
  {
    var parts := [Intro];
    var section := OverviewSection(data);
    if section.Failure? {
      return Failure(section.error);
    }
    parts := parts + section.value;
    section := FinancialSection(data);
    if section.Failure? {
      return Failure(section.error);
    }
    parts := parts + section.value;
    section := MarketSection(data);
    if section.Failure? {
      return Failure(section.error);
    }
    parts := parts + section.value;
    section := ProductsSection(data);
    if section.Failure? {
      return Failure(section.error);
    }
    parts := parts + section.value;
    section := AdditionalSection(data);
    if section.Failure? {
      return Failure(section.error);
    }
    parts := parts + section.value;
    parts := parts + Closing;
    return Success(Join("\n", parts));
  }

  method OverviewSection(data: BusinessData) returns (r: Result<seq<string>>)
    ensures r == OverviewLines(data)
  {
    var lines := [OverviewHeader];
    if Truthy(data.companyName) { lines := lines + [Line("Company Name", Show(data.companyName))]; }
    if Truthy(data.industry) { lines := lines + [Line("Industry", Show(data.industry))]; }
    if Truthy(data.businessType) { lines := lines + [Line("Business Type", Show(data.businessType))]; }
    if !data.location.Str? {
      return Failure(AttributeError);
    }
    if Strip(data.location.s) != "" { lines := lines + [Line("Location", data.location.s)]; }
    if Truthy(data.yearsInOperation) { lines := lines + [Line("Years in Operation", Show(data.yearsInOperation))]; }
    if Truthy(data.employeeCount) { lines := lines + [Line("Employee Count", Show(data.employeeCount))]; }
    lines := lines + [""];
    return Success(lines);
  }

  method FinancialSection(data: BusinessData) returns (r: Result<seq<string>>)
    ensures r == FinancialLines(data)
  {
    var lines := [];
    if Truthy(data.annualRevenue) || Truthy(data.totalAssets) || Truthy(data.creditRating) {
      lines := [FinancialHeader];
      if Truthy(data.annualRevenue) {
        var money := Money(data.annualRevenue);
        if money.Failure? {
          return Failure(money.error);
        }
        lines := lines + [Line("Annual Revenue", "$" + money.value)];
      }
      if Truthy(data.totalAssets) {
        var money := Money(data.totalAssets);
        if money.Failure? {
          return Failure(money.error);
        }
        lines := lines + [Line("Total Assets", "$" + money.value)];
      }
      if Truthy(data.creditRating) { lines := lines + [Line("Credit Rating", Show(data.creditRating))]; }
      lines := lines + [""];
    }
    return Success(lines);
  }

  method MarketSection(data: BusinessData) returns (r: Result<seq<string>>)
    ensures r == MarketLines(data)
  {
    var lines := [];
    if Truthy(data.primaryMarkets) || Truthy(data.competitiveAdvantages) || Truthy(data.businessModel) {
      lines := [MarketHeader];
      if Truthy(data.primaryMarkets) {
        var joined := JoinValue(", ", data.primaryMarkets);
        if joined.Failure? {
          return Failure(joined.error);
        }
        lines := lines + [Line("Primary Markets", joined.value)];
      }
      if Truthy(data.competitiveAdvantages) {
        var joined := JoinValue(", ", data.competitiveAdvantages);
        if joined.Failure? {
          return Failure(joined.error);
        }
        lines := lines + [Line("Competitive Advantages", joined.value)];
      }
      if Truthy(data.businessModel) { lines := lines + [Line("Business Model", Show(data.businessModel))]; }
      lines := lines + [""];
    }
    return Success(lines);
  }

  method ProductsSection(data: BusinessData) returns (r: Result<seq<string>>)
    ensures r == ProductLines(data)
  {
    var lines := [];
    if Truthy(data.keyProducts) || Truthy(data.recentDevelopments) {
      lines := [ProductsHeader];
      if Truthy(data.keyProducts) {
        var products := Iterate(data.keyProducts);
        if products.Failure? {
          return Failure(products.error);
        }
        var productsList := CollectProducts(products.value);
        if productsList != [] {
          var names := Strings(productsList);
          if names.None? {
            return Failure(TypeError);
          }
          lines := lines + [Line("Key Products/Services", Join(", ", names.value))];
        }
      }
      if Truthy(data.recentDevelopments) { lines := lines + [Line("Recent Developments", Show(data.recentDevelopments))]; }
      lines := lines + [""];
    }
    return Success(lines);
  }

  method AdditionalSection(data: BusinessData) returns (r: Result<seq<string>>)
    ensures r == AdditionalLines(data)
  {
    var lines := [];
    if Truthy(data.additionalInfo) || Truthy(data.legacyFields.documents) {
      lines := [AdditionalHeader];
      if Truthy(data.additionalInfo) {
        if !data.additionalInfo.Dict? {
          return Failure(AttributeError);
        }
        lines := AppendEntries(lines, data.additionalInfo.entries);
      }
      lines := lines + [""];
    }
    return Success(lines);
  }

  /** The loop over `key_products`: one text per product. */
  method CollectProducts(products: seq<Value>) returns (list: seq<Value>)
    ensures list == ProductTexts(products)
  {
    list := [];
    var i := 0;
    while i < |products|
      invariant 0 <= i <= |products|
      invariant list == ProductTexts(products[..i])
    {
      list := list + [ProductText(products[i])];
      i := i + 1;
    }
    assert products[..i] == products;
  }

  /** The loop over `additional_info.items()`: one line per entry, in order. */
  method AppendEntries(lines: seq<string>, entries: seq<(string, Value)>) returns (r: seq<string>)
    ensures r == lines + EntryLines(entries)
  {
    r := lines;
    var i := 0;
    while i < |entries|
      invariant 0 <= i <= |entries|
      invariant r == lines + EntryLines(entries[..i])
    {
      r := r + [EntryLine(entries[i])];
      i := i + 1;
    }
    assert entries[..i] == entries;
  }
}
