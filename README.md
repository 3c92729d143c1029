# Business analysis and risk assessment services — a Dafny model

This project models the deterministic core of two services that sit behind a
language model:

- **Business analysis** (`app/business_analysis/service.py`):
  - `BusinessData.__init__` normalises a loosely keyed request.
  - `_generate_analysis_id` derives an identifier from the company name and
    the clock.
  - `_create_analysis_prompt` builds a sectioned prompt line by line.
  - `_parse_analysis_response` reads the model's reply in three tiers:
    1. prefixed lines;
    2. the first long paragraph;
    3. text synthesised from the request.

    When parsing raises, it returns a fixed placeholder.
- **Risk assessment** (`app/risk_assessment/service.py`):
  - `BusinessRiskData.from_dict` normalises a request and derives the
    location from city and state.
  - `_create_risk_assessment_prompt` builds the risk prompt.
  - `_parse_rag_risk_response` does the following:
    - falls back on an empty retrieval answer;
    - asks the model for JSON;
    - strips a Markdown code fence with a backward scan;
    - maps the decoded object onto a `RiskAssessmentResult`;
    - falls back on any failure.
  - `_parse_traditional_risk_response` and `_create_fallback_assessment`
    build constant results.

How Python is represented:

- Python values are the `PyValue.Value` datatype (None, bool, int, str, list,
  dict). A request dictionary is a `map<string, Value>`.
- `str()` is `Show`. Truthiness is `Truthy`.
- An exception the source can raise is the `Failure` arm of
  `Wrappers.Result`. The model records whether it is a TypeError, ValueError
  or AttributeError.
- The completion API, `json.loads`, Python's `hash` and `time.time()` are
  parameters:
  - a function `string -> Option<string>`;
  - a function `string -> Option<Value>`;
  - an integer `companyHash`;
  - a `nat` timestamp.

Where the source works step by step, so does the model. Each of these parts
is a method proved equal to a specification function, and the properties are
lemmas about that function:

- the prompt builder appending to `prompt_parts`;
- the tier-1 loop over the reply's lines;
- the `+=` construction of the tier-3 overview;
- `from_dict` patching `mapped_data['location']`;
- the backward fence scan with its `break`.

Modules:

- `Wrappers`:
  - `Option`;
  - `Result`;
  - `PyError`.
- `PyStr`, the string operations the source relies on:
  - `strip`;
  - `startswith`;
  - `split`;
  - `join`;
  - `replace`;
  - `upper`;
  - `isalnum`;
  - integer printing;
  - `:,.2f` on integers of magnitude at most 2^53.
- `PyValue`:
  - the value type;
  - `dict.get`;
  - iteration;
  - `', '.join`.
- `AnalysisRecords`, `AnalysisId`, `AnalysisPrompt`, `AnalysisParser`:
  business analysis.
- `RiskRecords`, `RiskPrompt`, `RiskParser`: risk assessment.

Where the documented intent and the code disagree, the model follows the code:

- **Tier 1 keeps the last match.** In tier 1 the *last* matching line wins
  (`Tier1LastWins`); the documented intent is that the first match wins.
- **Fields can stay empty.** The fields are not always all filled: when the
  overview is at least 20 characters, tier 3 does not run (`Conclude`).
- **Prefix removal.** `replace` removes every copy of a prefix, not only the
  leading one (`FieldValue`).
- **Key mismatch.** The JSON reader looks for keys that the parsing prompt
  never asks for. Only `riskScore` and `riskFactors` are shared
  (`RequestedKeysRead`).
- **Missing location.** When city and state are both missing, the two
  records differ:
  - business analysis gives the location `", "` (`EmptyLocationIsComma`);
  - risk assessment gives `""` (`NoLocationIsEmpty`).
- **Empty ADDITIONAL INFORMATION.** The ADDITIONAL INFORMATION header can
  stand with no body lines (`DocumentsOnlyHeader`).

## Model

| member | source | states |
|---|---|---|
| AnalysisRecords.MakeBusinessData | app/business_analysis/service.py:23-59 | every attribute comes from its canonical key, else its legacy alias, else its literal default, chosen by key presence; the location defaults to the composed city/state text |
| AnalysisRecords.ComposedLocation | app/business_analysis/service.py:28 | the composed `"{city}, {state}"` location is a string that is never blank after stripping |
| AnalysisRecords.EmptyLocationIsComma | app/business_analysis/service.py:28 | with no location, city or state keys the location is `", "`, which strips to `","` |
| AnalysisRecords.CanonicalKeyWinsWhenFalsy | app/business_analysis/service.py:25 | a present but empty `companyName` hides `company` |
| AnalysisId.CleanChar | app/business_analysis/service.py:77 | a kept character maps to an identifier character (space to `_`, letters upper-cased) and identifier characters are fixed |
| AnalysisId.Cleaned | app/business_analysis/service.py:76 | one character contributes exactly one identifier character when kept and nothing otherwise |
| AnalysisId.CleanName | app/business_analysis/service.py:77 | `replace(' ', '_').upper()` of the kept text, one character at a time (`CleanNameChars`, `CleanNameAppend`, `CleanNameIdempotent`) |
| AnalysisId.KeptText | app/business_analysis/service.py:76 | the `''.join` of the items that are alphanumeric or one of ` -_` (`NameTextOfString`) |
| AnalysisId.CleanNameChars | app/business_analysis/service.py:76-77 | a cleaned name is made of identifier characters, is no longer than the name, and loses nothing when every character is kept |
| AnalysisId.CleanNameAppend | app/business_analysis/service.py:76-77 | cleaning distributes over concatenation |
| AnalysisId.CleanNameFixes | app/business_analysis/service.py:76-77 | a name of identifier characters is already clean |
| AnalysisId.CleanNameIdempotent | app/business_analysis/service.py:76-77 | cleaning twice equals cleaning once |
| AnalysisId.CleanNameExample | app/business_analysis/service.py:76-77 | `"a b!"` cleans to `"A_B"` and `"x-1"` to `"X-1"` |
| AnalysisId.TechCorpExample | app/business_analysis/service.py:76-77 | `"Tech Corp!!"` cleans to `"TECH_CORP"` |
| AnalysisId.LengthRule | app/business_analysis/service.py:79-82 | the id ends with the `_BA_` tail; its head is a prefix of the cleaned name, the whole name when name plus tail fit in 60, otherwise its first 30 characters |
| AnalysisId.IdFor | app/business_analysis/service.py:74-82 | the id is the cleaned name (or its 30-character cut when over 60) followed by `_BA_` and the timestamp's digits, and consists only of identifier characters |
| AnalysisId.CompanyName | app/business_analysis/service.py:73 | the name is `companyName`, else `company`, else `"UNKNOWN_COMPANY"`, by key presence |
| AnalysisId.NameText | app/business_analysis/service.py:76 | a string or dict name yields its kept text; a list succeeds exactly when all its items are strings (AttributeError otherwise); any other value raises TypeError |
| AnalysisId.NameTextOfString | app/business_analysis/service.py:76 | for a string name, filtering by characters and cleaning gives the cleaned name |
| AnalysisId.GenerateAnalysisId | app/business_analysis/service.py:70-85 | succeeds exactly when the name can be filtered, with the same error otherwise; a string name gives `IdFor` of that name |
| AnalysisId.IdForCleanName | app/business_analysis/service.py:79-82 | a clean name that fits appears unchanged before `_BA_<timestamp>` |
| AnalysisId.UnknownCompanyName | app/business_analysis/service.py:73 | without name keys the name is `"UNKNOWN_COMPANY"` |
| AnalysisId.UnknownCompanyId | app/business_analysis/service.py:73-82 | without name keys the id is `UNKNOWN_COMPANY_BA_<timestamp>` for any timestamp of at most ten digits |
| AnalysisPrompt.Line | app/business_analysis/service.py:176 | a `tag: value` line always holds its colon and begins with the tag |
| AnalysisPrompt.Add | app/business_analysis/service.py:175-186 | a conditional `append` adds the line exactly when the condition holds |
| AnalysisPrompt.Close | app/business_analysis/service.py:187 | a section ends with the empty line |
| AnalysisPrompt.OverviewLines | app/business_analysis/service.py:174-187 | the overview is always present and starts with its header; it fails exactly when the location is not a string |
| AnalysisPrompt.AddMoney | app/business_analysis/service.py:192-195 | a falsy amount adds nothing; a truthy amount succeeds only for int or bool and otherwise raises the formatter's error |
| AnalysisPrompt.FinancialLines | app/business_analysis/service.py:190-198 | the financial section is shaped and is present exactly when revenue, assets or credit rating is truthy |
| AnalysisPrompt.AddJoined | app/business_analysis/service.py:203-206 | a falsy list adds nothing; a truthy one succeeds exactly when `', '.join` does |
| AnalysisPrompt.MarketLines | app/business_analysis/service.py:201-209 | the market section is shaped and is present exactly when markets, advantages or business model is truthy |
| AnalysisPrompt.ProductTexts | app/business_analysis/service.py:216-220 | one text per product, in order, each a dict's description or the item's `str` |
| AnalysisPrompt.AddProducts | app/business_analysis/service.py:214-222 | falsy products add nothing; truthy products add exactly one line or raise TypeError |
| AnalysisPrompt.ProductLines | app/business_analysis/service.py:212-225 | the products section is shaped and is present exactly when key products or recent developments are truthy |
| AnalysisPrompt.EntryLines | app/business_analysis/service.py:231-232 | one `key: value` line per additional-info entry, in order |
| AnalysisPrompt.AddInfo | app/business_analysis/service.py:230-232 | falsy info adds nothing; truthy info succeeds exactly when it is a dict and appends its entry lines, otherwise AttributeError |
| AnalysisPrompt.AdditionalLines | app/business_analysis/service.py:228-233 | the additional section is shaped and is present exactly when the info or the legacy documents are truthy |
| AnalysisPrompt.HeaderOfSection | app/business_analysis/service.py:173-233 | a section holds its own header exactly when it is present |
| AnalysisPrompt.OtherHeader | app/business_analysis/service.py:173-233 | a section never holds another section's header |
| AnalysisPrompt.PromptLines | app/business_analysis/service.py:169-245 | the intro, the five sections in order and the closing lines, or the first exception a section raises (`PromptFrame`, `FinancialInPrompt`, `MarketInPrompt`, `ProductsInPrompt`, `AdditionalInPrompt`) |
| AnalysisPrompt.AnalysisPrompt | app/business_analysis/service.py:246 | the `"\n"`-join of the prompt lines (`CreateAnalysisPrompt`) |
| AnalysisPrompt.PromptFrame | app/business_analysis/service.py:173-246 | every prompt starts with the intro and the overview header and ends with the fixed analysis instructions |
| AnalysisPrompt.FinancialInPrompt | app/business_analysis/service.py:190-191 | the financial header is in the prompt iff revenue, assets or credit rating is truthy |
| AnalysisPrompt.MarketInPrompt | app/business_analysis/service.py:201-202 | the market header is in the prompt iff markets, advantages or business model is truthy |
| AnalysisPrompt.ProductsInPrompt | app/business_analysis/service.py:212-213 | the products header is in the prompt iff key products or recent developments are truthy |
| AnalysisPrompt.AdditionalInPrompt | app/business_analysis/service.py:228-229 | the additional-information header is in the prompt iff the info or the legacy documents are truthy |
| AnalysisPrompt.DocumentsOnlyHeader | app/business_analysis/service.py:228-233 | with documents but no info the section is the header and the empty line alone |
| AnalysisPrompt.LocationNotString | app/business_analysis/service.py:181 | a non-string location makes the prompt raise AttributeError |
| AnalysisPrompt.StringRevenue | app/business_analysis/service.py:193 | a non-empty string revenue makes the prompt raise ValueError |
| AnalysisPrompt.LocationLine | app/business_analysis/service.py:181-182 | the location line is in the overview iff the location is not blank |
| AnalysisPrompt.InfoNotDict | app/business_analysis/service.py:230-232 | truthy additional info that is not a dict raises AttributeError |
| AnalysisPrompt.CreateAnalysisPrompt | app/business_analysis/service.py:169-246 | the appending builder yields the specified prompt or error |
| AnalysisPrompt.OverviewSection | app/business_analysis/service.py:174-187 | the overview appends yield the specified section |
| AnalysisPrompt.FinancialSection | app/business_analysis/service.py:190-198 | the financial appends yield the specified section |
| AnalysisPrompt.MarketSection | app/business_analysis/service.py:201-209 | the market appends yield the specified section |
| AnalysisPrompt.ProductsSection | app/business_analysis/service.py:212-225 | the products appends yield the specified section |
| AnalysisPrompt.AdditionalSection | app/business_analysis/service.py:228-233 | the additional-information appends yield the specified section |
| AnalysisPrompt.CollectProducts | app/business_analysis/service.py:215-220 | the product loop collects one text per product |
| AnalysisPrompt.AppendEntries | app/business_analysis/service.py:231-232 | the items loop appends one line per entry, in order |
| AnalysisParser.Lines | app/business_analysis/service.py:255 | the reply is stripped and split at newlines (its properties are those of `PyStr.Split`) |
| AnalysisParser.FieldValue | app/business_analysis/service.py:267 | the value of a matched line is the line with every copy of the prefix removed, then stripped (`FieldValueOfPrefixed`, `SecondCopyRemoved`) |
| AnalysisParser.Step | app/business_analysis/service.py:265-279 | one iteration of the line loop: strip the line, and overwrite the accumulator of its first matching prefix (`ExtractLine`, `UnmatchedLineIgnored`) |
| AnalysisParser.Tier1 | app/business_analysis/service.py:264-279 | the loop over all lines; the last matching line wins and an unmatched field stays empty (`Tier1LastWins`, `Tier1Unmatched`, `ExtractFields`) |
| AnalysisParser.Match | app/business_analysis/service.py:266-279 | the chosen prefix is the first in the `elif` order that the line starts with; none when no prefix matches |
| AnalysisParser.FieldValueOfPrefixed | app/business_analysis/service.py:267 | with no further copy of the prefix, the value is the trimmed rest of the line |
| AnalysisParser.SetField | app/business_analysis/service.py:266-279 | a match overwrites its own accumulator and no other |
| AnalysisParser.IndustryExample | app/business_analysis/service.py:267 | `"INDUSTRY_CLASSIFICATION: Retail"` gives `"Retail"` |
| AnalysisParser.Tier1LastWins | app/business_analysis/service.py:264-279 | a field holds the value of the last line matching its prefix |
| AnalysisParser.Tier1Unmatched | app/business_analysis/service.py:256-279 | a field that no line matches stays empty |
| AnalysisParser.UnmatchedLineIgnored | app/business_analysis/service.py:264-279 | a line matching no prefix changes no accumulator |
| AnalysisParser.LongOnes | app/business_analysis/service.py:284 | every kept paragraph is over 30 characters |
| AnalysisParser.FirstLongParagraph | app/business_analysis/service.py:284-286 | the first kept paragraph is the first piece whose trimmed length exceeds 30 |
| AnalysisParser.NoLongParagraph | app/business_analysis/service.py:284-286 | with no long piece, nothing is kept |
| AnalysisParser.Tier2Overview | app/business_analysis/service.py:280-286 | the stripped tier-1 overview, passed through tier 2 (`Tier2`) |
| AnalysisParser.SynthName | app/business_analysis/service.py:291 | `companyName`, else `company`, else `"Company"`, by key presence (`PyValue.Get`) |
| AnalysisParser.SynthYears | app/business_analysis/service.py:292 | `yearsInOperation`, else `yearsInBusiness`, else `"Unknown"`, by key presence (`PyValue.Get`) |
| AnalysisParser.SynthLocation | app/business_analysis/service.py:293 | `location`, else `""` (`PyValue.Get`) |
| AnalysisParser.SynthIndustry | app/business_analysis/service.py:294 | `industry`, else `""` (`PyValue.Get`) |
| AnalysisParser.Tier2 | app/business_analysis/service.py:283-286 | tier 2 leaves a non-empty overview, or one from a reply of at most 50 stripped characters, alone; an empty overview with a longer reply becomes the first paragraph whose trimmed length exceeds 30, or stays empty when there is none |
| AnalysisParser.Append | app/business_analysis/service.py:296-303 | a conditional `+=` extends the text by the part when the condition holds and leaves it unchanged otherwise |
| AnalysisParser.Synthesized | app/business_analysis/service.py:289-303 | the tier-3 overview is the name, `" is an established business"`, then the industry clause exactly when the industry is truthy, the years clause exactly when the years differ from the string `"Unknown"`, the location clause exactly when the stripped location is non-empty, and `"."`; it fails with AttributeError exactly when the location is not a string |
| AnalysisParser.SynthesizedExample | app/business_analysis/service.py:296-303 | a full request gives `Acme Trucking is an established business in the Transportation sector with 12 years of operational experience based in Dallas, TX.` |
| AnalysisParser.SecondCopyRemoved | app/business_analysis/service.py:267 | `replace` also removes a later copy of the prefix: `"MARKET_POSITION: a MARKET_POSITION: b"` gives `"a  b"` |
| AnalysisParser.RemoveSecondCopy | app/business_analysis/service.py:267 | `(p + q + p + b).replace(p, "")` is `q + b` when no character of `q` starts `p` and `b` is shorter than `p` |
| AnalysisParser.RemoveAllKeep | app/business_analysis/service.py:267 | `replace` keeps text none of whose characters starts the pattern, and continues after it |
| AnalysisParser.OrElse | app/business_analysis/service.py:305-316 | an empty field gets its default and a non-empty one is kept |
| AnalysisParser.FillIn | app/business_analysis/service.py:305-316 | fields tier 1 found are unchanged; an empty industry becomes the request's truthy industry, else `"Business Services"`; each of the other five empty fields gets its fixed phrase; the overview is untouched |
| AnalysisParser.Record | app/business_analysis/service.py:318-327 | the record carries the accumulators, the final overview and the caller's id |
| AnalysisParser.Placeholder | app/business_analysis/service.py:329-340 | the placeholder carries the caller's id and has every field filled |
| AnalysisParser.Conclude | app/business_analysis/service.py:289-327 | the id is preserved and the overview has at least 20 characters; when tier 3 succeeds the record is the synthesized overview with the filled-in fields; a non-string location raises and gives the placeholder; without tier 3 the tier-1 fields are returned as found |
| AnalysisParser.FoundFieldKept | app/business_analysis/service.py:305-316 | tier 3 never overwrites a field tier 1 found |
| AnalysisParser.ParsedAnalysis | app/business_analysis/service.py:248-340 | every parse keeps the id and ends with an overview of at least 20 characters; a long enough tier-1/tier-2 overview is returned with the tier-1 fields; otherwise the result is the synthesized overview with the fill-ins, or the placeholder when the location is not a string |
| AnalysisParser.NothingFoundSynthesized | app/business_analysis/service.py:289-316 | when tiers 1 and 2 find nothing, the parse result's overview is the synthesized sentence, its industry the request's truthy industry or `"Business Services"`, and its market position the fixed phrase |
| AnalysisParser.ShortReplyExample | app/business_analysis/service.py:248-316 | the reply `"OK"` for the Acme Trucking request parses to the Acme Trucking sentence with industry `"Transportation"` |
| AnalysisParser.ShortReplyNothingFound | app/business_analysis/service.py:255-286 | `"OK"` matches no prefix and is too short for tier 2: every accumulator stays empty |
| AnalysisParser.ParseAnalysisResponse | app/business_analysis/service.py:248-340 | the looping parser yields the specified analysis |
| AnalysisParser.ExtractFields | app/business_analysis/service.py:264-279 | the tier-1 loop yields the specified accumulators |
| AnalysisParser.ExtractLine | app/business_analysis/service.py:265-279 | one loop pass trims the line and applies the first matching prefix |
| AnalysisParser.SynthesizeOverview | app/business_analysis/service.py:291-303 | the `+=` construction yields the specified overview or error |
| AnalysisParser.FillInFields | app/business_analysis/service.py:305-316 | the `if not field` assignments yield the specified fill-ins |
| RiskRecords.RiskData | app/risk_assessment/service.py:41-65 | every field from its canonical key, else its alias, else its literal default, by key presence; a falsy location becomes `"city, state"`, or the city, or stays |
| RiskRecords.FromDict | app/risk_assessment/service.py:41-65 | filling the record and then patching the location yields the specified record |
| RiskRecords.LocationTruthy | app/risk_assessment/service.py:57-63 | the location is truthy iff the request has a truthy location or a truthy city |
| RiskRecords.NoLocationIsEmpty | app/risk_assessment/service.py:57-63 | with no location, city or state the location is `""` |
| RiskRecords.EmptyRequestDefaults | app/risk_assessment/service.py:42-55 | an empty request yields every literal default |
| RiskRecords.CanonicalKeyWins | app/risk_assessment/service.py:43 | a present but empty `companyName` hides `company` |
| RiskPrompt.ListDesc | app/risk_assessment/service.py:322-323 | a falsy list renders as `"Not specified"`; a non-empty list as the `", "`-join of its items' `str()`, so a singleton as its item's `str()`; it succeeds exactly when the value is falsy or iterable, otherwise TypeError |
| PyValue.Truthy | app/business_analysis/service.py:297 | Python truthiness: None, `False`, `0`, `""` and empty containers are falsy (`Show` relies on it) |
| PyValue.Show | app/business_analysis/service.py:296 | `str(v)`: a string is itself and a truthy value prints as non-empty text |
| PyValue.Get | app/business_analysis/service.py:291-294 | `dict.get`: the entry when the key is present, the default otherwise |
| PyValue.Resolve | app/business_analysis/service.py:25-58 | nested `get` over an alias list: the first present key's value, else the default (`ResolveFirstPresent`) |
| PyValue.Money | app/business_analysis/service.py:192-195 | `:,.2f` succeeds exactly for int and bool and gives `MoneyOfInt` of an int |
| PyValue.JoinShown | app/risk_assessment/service.py:322-323 | `', '.join([str(p) for p in v])` succeeds exactly for strings, lists and dicts, and for a list is the join of its items' `str()` |
| RiskPrompt.ListDescOfStrings | app/risk_assessment/service.py:322-323 | a non-empty list of strings renders as their `", "`-join |
| RiskPrompt.PromptText | app/risk_assessment/service.py:325-355 | the prompt starts with the intro and company line and ends with the personnel, products and the fixed nine-item list |
| RiskPrompt.FormattedParts | app/risk_assessment/service.py:322-337 | the three formatted parts succeed exactly when the revenue formats and both lists render; a list that fails raises TypeError, and a revenue that fails raises ValueError for a string and TypeError otherwise |
| RiskPrompt.RiskAssessmentPrompt | app/risk_assessment/service.py:321-355 | the prompt fails exactly when a part fails, with that error; otherwise it starts with the company line and ends with the rendered lists and the nine-item list |
| RiskPrompt.DefaultRequestPrompt | app/risk_assessment/service.py:321-355 | a request with no revenue or lists yields a prompt with `"Not specified"` for personnel and products |
| RiskParser.LastMarked | app/risk_assessment/service.py:253-256 | the backward scan finds the highest marked index at or above 1, or reports none |
| RiskParser.CloseIndex | app/risk_assessment/service.py:250-256 | the end index is the last fence line at index 1 or above, or the line count when there is none |
| RiskParser.FenceStripped | app/risk_assessment/service.py:248-262 | a reply not starting with "```json" passes through unchanged; otherwise the lines between the first and the last closing fence are joined |
| RiskParser.StripCodeFence | app/risk_assessment/service.py:248-262 | the loop with `break` yields the specified unfenced text |
| RiskParser.FencedLines | app/risk_assessment/service.py:249-259 | a fenced reply is cut at its close index |
| RiskParser.FenceRoundTrip | app/risk_assessment/service.py:248-262 | fencing JSON lines, with a trailer holding no fence, and stripping gives the JSON lines back, even when they hold fence lines |
| RiskParser.UnclosedFence | app/risk_assessment/service.py:250-258 | without a closing fence all lines after the opener are kept |
| RiskParser.AssessmentId | app/risk_assessment/service.py:276 | `RA_`, the company hash, `_`, and `str()` of the business id (`MapFields`) |
| RiskParser.MapFields | app/risk_assessment/service.py:266-276 | each field is the object's value for its key or its own default, and the id is `RA_<hash>_<businessId>` |
| RiskParser.MappedFieldPresent | app/risk_assessment/service.py:266-275 | a key the object holds gives the object's value, whatever it is |
| RiskParser.MappedFieldAbsent | app/risk_assessment/service.py:266-275 | a missing key gives that field's default text |
| RiskParser.RequestedKeysRead | app/risk_assessment/service.py:215-223 | of the nine requested keys only `riskScore` and `riskFactors` are read back; the other seven read keys are never requested |
| RiskParser.RequestedShapeIgnored | app/risk_assessment/service.py:267-275 | an object with only the requested keys leaves seven fields at their defaults |
| RiskParser.TraditionalAssessment | app/risk_assessment/service.py:357-369 | the traditional result is `"Medium"` with the `RA_<hash>_<businessId>` id |
| RiskParser.TraditionalIgnoresReply | app/risk_assessment/service.py:357-369 | the traditional result does not depend on the reply |
| RiskParser.ScoreText | app/risk_assessment/service.py:374 | the score text starts with "Risk assessment for " and the company, and ends with " requires manual review" |
| RiskParser.ScoreTextNamesCompany | app/risk_assessment/service.py:374 | equal score texts come from companies that print the same |
| RiskParser.FallbackId | app/risk_assessment/service.py:382 | `RA_`, the company hash and `_FALLBACK` (`FallbackAssessment`, `FallbackIdCollides`) |
| RiskParser.FallbackAssessment | app/risk_assessment/service.py:371-383 | the fallback is `"Medium"` with the company's score text and the `RA_<hash>_FALLBACK` id |
| RiskParser.FallbackNamesCompany | app/risk_assessment/service.py:374 | equal fallback scores come from companies that print the same |
| RiskParser.FallbackIdCollides | app/risk_assessment/service.py:276 | a business id of `"FALLBACK"` gives a mapped result the fallback's id |
| RiskParser.ReplyOutcome | app/risk_assessment/service.py:244-275 | the reply is mapped exactly when it exists and its trimmed, unfenced text decodes to an object, which is what is mapped |
| RiskParser.RagOutcomeOf | app/risk_assessment/service.py:199-245 | a missing or blank retrieval answer falls back before any model call; otherwise the outcome is that of the model's reply to the parsing prompt built from the answer |
| RiskParser.OutcomeAssessment | app/risk_assessment/service.py:266-284 | a fallback outcome yields the fallback for the company; a mapped one the field mapping with the `RA_<hash>_<businessId>` id |
| RiskParser.ParseRagRiskResponse | app/risk_assessment/service.py:195-284 | the parse yields the result of the specified outcome |
| RiskParser.InterpretReply | app/risk_assessment/service.py:244-284 | trimming, the fence loop, decoding and mapping yield the result of the reply's outcome |
| RiskParser.FencedReplyMapped | app/risk_assessment/service.py:248-264 | a reply that is a fenced JSON block reaches the decoder as the block's body, so an object decoded from it is mapped |
| RiskParser.FencedReplyStripped | app/risk_assessment/service.py:244 | trimming leaves a fenced block whole |

## Left out

- All calls to the completion service and the retrieval assistant. They are
  the `complete` parameter, whose `None` covers a raising call and a message
  without content. The system prompts and the fixed messages sent beside the
  user prompts are not modelled.
- `generate_analysis`, `assess_risk`, `_assess_with_rag` (and its query text)
  and `_assess_traditional`: glue around the completion calls. The same goes
  for the AttributeError that `data.company` raises in `_assess_traditional`'s
  handler (app/risk_assessment/service.py:304).
  `app/risk_assessment/rag_manager.py`, `setup_rag.py`, both `schema.py`
  files and the lambda handlers are not part of this model.
- Logging and `print` calls. This includes the keyword scan at
  app/risk_assessment/service.py:203-205, which is only printed.
- `json.loads` is the `decode` parameter (None when it raises). A decoded
  object is an ordered list of entries; the lookup takes the first entry with
  a key and, for an object without repeated keys (`DistinctKeys`), that is
  its only one.
- `time.time()` and `hash()` are parameters. `hash` of an unhashable company
  name (a list or dict) raises TypeError in the source. The model gives it a
  hash anyway.
- Floating point. Values are None, bool, int, str, list and dict. `:,.2f` is
  modelled for int and bool, and raises ValueError for str and TypeError
  otherwise.
- PyValue.Money: Python first converts an integer to a float, so the digits
  are exact only for magnitudes up to 2^53. Above that the float rounds
  (`10**16 + 1` prints as `10,000,000,000,000,000.00`), and above about
  1.8e308 the conversion raises OverflowError. The model prints every
  integer's exact digits and raises neither.
- `str()` of a list or dict is approximated: strings are quoted with `'` and
  not escaped.
- `isalnum` and `upper` are ASCII only.
- AnalysisParser.FillIn: the tier-3 industry fill-in stores `str()` of a
  truthy non-string industry, while the source stores the value itself.
  `BusinessAnalysis` fields are strings here.
- `BusinessRiskData.__post_init__`'s `_legacy_data` branch
  (app/risk_assessment/service.py:30-38) is dead code, since nothing sets
  `_legacy_data`.
- `BusinessData` and `BusinessRiskData` take any value and check no
  types. They are datatypes with `Value` fields.
- RiskRecords.FromDict: `mapped_data` has exactly the record's keys, so it
  is held as the record itself instead of as a dictionary.
- AnalysisId.UnknownCompanyId: stated only for timestamps of at most ten
  digits, which Unix time in seconds is until the year 2286.
- RiskParser.ParsingPrompt carries no contract of its own. The keys it
  requests are `RequestedKeys`, and their mismatch with the keys that are
  read is `RequestedKeysRead`.
- The reply content is assumed to be a string. A completion yielding
  another type is covered by `None`.
