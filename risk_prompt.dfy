/** `RiskAssessmentService._create_risk_assessment_prompt`
    (app/risk_assessment/service.py): one f-string over the business profile,
    the financial indicators, the two item lists and a fixed list of nine
    requested sections. */
module RiskPrompt {
  import opened Wrappers
  import opened PyStr
  import opened PyValue
  import opened RiskRecords

  const NotSpecified := "Not specified"

  /** Each line of the prompt starts after a newline and eight spaces. */
  const Indent := "\n        "

  const Intro := Indent + "Perform comprehensive business risk assessment for:" + Indent
                 + Indent + "BUSINESS PROFILE:" + Indent + "Company: "
  const IndustryLabel := Indent + "Industry: "
  const LocationLabel := Indent + "Location: "
  const YearsLabel := Indent + "Years in Operation: "
  const StructureLabel := Indent + "Business Structure: "
  const EmployeesLabel := Indent + "Employee Count: "
  const RevenueLabel := Indent + Indent + "FINANCIAL INDICATORS:" + Indent + "Annual Revenue: $"
  const CreditLabel := Indent + "Credit Rating: "
  const PositionLabel := Indent + "Market Position: "
  const PersonnelLabel := Indent + Indent + "OPERATIONAL DETAILS:" + Indent + "Key Personnel: "
  const ProductsLabel := Indent + "Main Products/Services: "

  /** The nine requested sections that close every prompt. */
  const RequestList := Indent + Indent + "Provide comprehensive risk assessment including:"
    + Indent + "1. Overall Risk Level (Low/Medium/High/Critical)" + Indent + "2. Risk Score with methodology"
    + Indent + "3. Financial Risk Assessment" + Indent + "4. Operational Risk Analysis"
    + Indent + "5. Market Risk Evaluation" + Indent + "6. Compliance Risk Assessment"
    + Indent + "7. Key Risk Factors" + Indent + "8. Risk Mitigation Strategies"
    + Indent + "9. Executive Risk Summary" + Indent

  /** `', '.join([str(p) for p in v]) if v else 'Not specified'`: an empty list
      reads "Not specified"; a truthy value that cannot be iterated raises TypeError. */
  function ListDesc(v: Value): (r: Result<string>)
    ensures r.Success? <==> !Truthy(v) || v.Str? || v.List? || v.Dict?
    ensures r.Failure? ==> r.error == TypeError
    ensures !Truthy(v) ==> r == Success(NotSpecified)
    ensures v.List? && v.items != [] ==> r == Success(Join(", ", ShownItems(v.items)))
    ensures v.List? && |v.items| == 1 ==> r == Success(Show(v.items[0]))
  {
    if Truthy(v) then JoinShown(", ", v) else Success(NotSpecified)
  }

  /** The items of a non-empty list of strings are joined with ", ". */
  lemma ListDescOfStrings(items: seq<Value>, names: seq<string>)
    requires items != [] && |names| == |items|
    requires forall k :: 0 <= k < |items| ==> items[k] == Str(names[k])
    ensures ListDesc(List(items)) == Success(Join(", ", names))
  {
    assert ShownItems(items) == names;
  }

  /** The company line that opens the BUSINESS PROFILE block. */
  function CompanyLine(d: BusinessRiskData): string {
    Intro + Show(d.companyName)
  }

  /** The rest of the BUSINESS PROFILE block. */
  function ProfileRest(d: BusinessRiskData): string {
    IndustryLabel + Show(d.industry) + LocationLabel + Show(d.location)
    + YearsLabel + Show(d.yearsInOperation) + StructureLabel + Show(d.businessStructure)
    + EmployeesLabel + Show(d.employeeCount)
  }

  /** The FINANCIAL INDICATORS block, given the formatted revenue. */
  function Financials(d: BusinessRiskData, revenue: string): string {
    RevenueLabel + revenue + CreditLabel + Show(d.creditRating) + PositionLabel + Show(d.marketPosition)
  }

  /** The OPERATIONAL DETAILS block and the nine requested sections after it. */
  function Closing(personnel: string, products: string): string {
    (PersonnelLabel + personnel) + ((ProductsLabel + products) + RequestList)
  }

  /** How the five blocks sit in the prompt: the first opens it, the last closes it. */
  lemma Layout(first: string, profile: string, financials: string, personnel: string, products: string, requests: string)
    ensures var p := (first + profile) + financials + (personnel + (products + requests));
      && StartsWith(p, first)
      && EndsWith(p, personnel + (products + requests))
      && EndsWith(p, requests)
  {
    var head := (first + profile) + financials;
    var tail := personnel + (products + requests);
    ConcatEnds(first, profile);
    ConcatEnds(first + profile, financials);
    ConcatEnds(head, tail);
    StartsWithTrans(first, first + profile, head);
    StartsWithTrans(first, head, head + tail);
    ConcatEnds(products, requests);
    ConcatEnds(personnel, products + requests);
    EndsWithTrans(requests, products + requests, tail);
    EndsWithTrans(requests, tail, head + tail);
  }

  /** The text of the prompt once the list descriptions and the revenue are
      formatted: it opens with the company line and ends with the personnel
      line, the products line and the nine requested sections. */
  function PromptText(d: BusinessRiskData, revenue: string, personnel: string, products: string): (t: string)
    ensures StartsWith(t, CompanyLine(d))
    ensures EndsWith(t, Closing(personnel, products))
    ensures EndsWith(t, RequestList)
  {
    Layout(CompanyLine(d), ProfileRest(d), Financials(d, revenue), PersonnelLabel + personnel,
           ProductsLabel + products, RequestList);
    (CompanyLine(d) + ProfileRest(d)) + Financials(d, revenue) + Closing(personnel, products)
  }

  /** The f-string's formatted parts, or the exception raised computing them:
      the products and personnel descriptions first, then the revenue. */
  function FormattedParts(d: BusinessRiskData): (r: Result<(string, string, string)>)
    ensures r.Success? <==> ListDesc(d.mainProducts).Success? && ListDesc(d.keyPersonnel).Success?
                            && (d.annualRevenue.Int? || d.annualRevenue.Bool?)
    ensures ListDesc(d.mainProducts).Failure? || ListDesc(d.keyPersonnel).Failure? ==> r == Failure(TypeError)
    ensures r.Failure? && ListDesc(d.mainProducts).Success? && ListDesc(d.keyPersonnel).Success?
            ==> r == Failure(if d.annualRevenue.Str? then ValueError else TypeError)
    ensures r.Success? ==> r.value == (Money(d.annualRevenue).value, ListDesc(d.keyPersonnel).value,
                                       ListDesc(d.mainProducts).value)
  {
    var products :- ListDesc(d.mainProducts);
    var personnel :- ListDesc(d.keyPersonnel);
    var revenue :- Money(d.annualRevenue);
    Success((revenue, personnel, products))
  }

  /** The prompt, or the exception its f-string raises: the exception of the
      formatted parts when they fail, otherwise the text that opens with the
      company line and ends with the two list lines and the nine requested
      sections. */
  function RiskAssessmentPrompt(d: BusinessRiskData): (r: Result<string>)
    ensures FormattedParts(d).Failure? ==> r == Failure(FormattedParts(d).error)
    ensures FormattedParts(d).Success? ==>
              && r.Success?
              && StartsWith(r.value, CompanyLine(d))
              && EndsWith(r.value, Closing(FormattedParts(d).value.1, FormattedParts(d).value.2))
              && EndsWith(r.value, RequestList)
  {
    var (revenue, personnel, products) :- FormattedParts(d);
    Success(PromptText(d, revenue, personnel, products))
  }

  /** A request without revenue or list keys always yields a prompt, and both
      lists read "Not specified". */
  lemma DefaultRequestPrompt(data: Input)
    requires "annualRevenue" !in data && "totalEquipmentCost" !in data
    requires "keyPersonnel" !in data && "mainProducts" !in data && "leadEquipments" !in data
    ensures RiskAssessmentPrompt(RiskData(data)).Success?
    ensures EndsWith(RiskAssessmentPrompt(RiskData(data)).value, Closing(NotSpecified, NotSpecified))
  {
    var d := RiskData(data);
    ResolveNonePresent(data, ["annualRevenue", "totalEquipmentCost"], Int(0));
    ResolveNonePresent(data, ["keyPersonnel"], List([]));
    ResolveNonePresent(data, ["mainProducts", "leadEquipments"], List([]));
    assert ListDesc(d.keyPersonnel) == Success(NotSpecified);
    assert ListDesc(d.mainProducts) == Success(NotSpecified);
  }
}
