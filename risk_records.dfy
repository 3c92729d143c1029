/** The risk pipeline's records (app/risk_assessment/service.py): the
    `BusinessRiskData` record that `BusinessRiskData.from_dict` builds from a
    loosely keyed request, and the `RiskAssessmentResult` it ends in. */
module RiskRecords {
  import opened PyStr
  import opened PyValue

  /** The dataclass fields. The source passes request values through unchecked,
      so every field is an untyped `Value`. */
  datatype BusinessRiskData = BusinessRiskData(
    companyName: Value,
    industry: Value,
    location: Value,
    yearsInOperation: Value,
    businessStructure: Value,
    employeeCount: Value,
    annualRevenue: Value,
    creditRating: Value,
    keyPersonnel: Value,
    mainProducts: Value,
    marketPosition: Value,
    businessId: Value)

  /** Nine assessment texts and the identifier. The texts are `Value`s because
      the JSON path stores whatever the decoded object holds. */
  datatype RiskAssessmentResult = RiskAssessmentResult(
    overallRiskLevel: Value,
    riskScore: Value,
    financialRisk: Value,
    operationalRisk: Value,
    marketRisk: Value,
    complianceRisk: Value,
    riskFactors: Value,
    mitigationStrategies: Value,
    riskSummary: Value,
    assessmentId: string)

  const DefaultIndustry := "Business Services"
  const DefaultStructure := "Unknown"
  const DefaultCredit := "Not Available"
  const DefaultPosition := "Established"

  /** What `from_dict` produces: every field from its canonical key, then its
      alias, then a literal default, chosen by key presence; a falsy location
      is then replaced by `"city, state"` when both are truthy, by the city
      alone when only the city is, and otherwise kept. */
  function RiskData(data: Input): (r: BusinessRiskData)
    ensures r.companyName == Resolve(data, ["companyName", "company"], Str(""))
    ensures r.industry == Resolve(data, ["industry"], Str(DefaultIndustry))
    ensures r.yearsInOperation == Resolve(data, ["yearsInOperation", "yearsInBusiness"], Int(0))
    ensures r.businessStructure == Resolve(data, ["businessStructure"], Str(DefaultStructure))
    ensures r.employeeCount == Resolve(data, ["employeeCount"], Int(0))
    ensures r.annualRevenue == Resolve(data, ["annualRevenue", "totalEquipmentCost"], Int(0))
    ensures r.creditRating == Resolve(data, ["creditRating"], Str(DefaultCredit))
    ensures r.keyPersonnel == Resolve(data, ["keyPersonnel"], List([]))
    ensures r.mainProducts == Resolve(data, ["mainProducts", "leadEquipments"], List([]))
    ensures r.marketPosition == Resolve(data, ["marketPosition"], Str(DefaultPosition))
    ensures r.businessId == Resolve(data, ["businessId"], Str(""))
    ensures var loc, city, state := Get(data, "location", Str("")), Get(data, "businessCity", Str("")),
                                    Get(data, "businessState", Str(""));
            && (Truthy(loc) ==> r.location == loc)
            && (!Truthy(loc) && Truthy(city) && Truthy(state) ==> r.location == Str(Show(city) + ", " + Show(state)))
            && (!Truthy(loc) && Truthy(city) && !Truthy(state) ==> r.location == city)
            && (!Truthy(loc) && !Truthy(city) ==> r.location == loc)
  {
    GetAlias(data, "companyName", "company", Str(""));
    GetAlias(data, "yearsInOperation", "yearsInBusiness", Int(0));
    GetAlias(data, "annualRevenue", "totalEquipmentCost", Int(0));
    GetAlias(data, "mainProducts", "leadEquipments", List([]));
    GetSingle(data, "industry", Str(DefaultIndustry));
    GetSingle(data, "businessStructure", Str(DefaultStructure));
    GetSingle(data, "employeeCount", Int(0));
    GetSingle(data, "creditRating", Str(DefaultCredit));
    GetSingle(data, "keyPersonnel", List([]));
    GetSingle(data, "marketPosition", Str(DefaultPosition));
    GetSingle(data, "businessId", Str(""));
    var loc := Get(data, "location", Str(""));
    var city, state := Get(data, "businessCity", Str("")), Get(data, "businessState", Str(""));
    BusinessRiskData(
      companyName := Get(data, "companyName", Get(data, "company", Str(""))),
      industry := Get(data, "industry", Str(DefaultIndustry)),
      location :=
        if Truthy(loc) then loc
        else if Truthy(city) && Truthy(state) then Str(Show(city) + ", " + Show(state))
        else if Truthy(city) then city
        else loc,
      yearsInOperation := Get(data, "yearsInOperation", Get(data, "yearsInBusiness", Int(0))),
      businessStructure := Get(data, "businessStructure", Str(DefaultStructure)),
      employeeCount := Get(data, "employeeCount", Int(0)),
      annualRevenue := Get(data, "annualRevenue", Get(data, "totalEquipmentCost", Int(0))),
      creditRating := Get(data, "creditRating", Str(DefaultCredit)),
      keyPersonnel := Get(data, "keyPersonnel", List([])),
      mainProducts := Get(data, "mainProducts", Get(data, "leadEquipments", List([]))),
      marketPosition := Get(data, "marketPosition", Str(DefaultPosition)),
      businessId := Get(data, "businessId", Str("")))
  }

  /** `BusinessRiskData.from_dict`. The `mapped_data` dictionary has exactly the
      record's keys, so it is held as the record itself: filled from the
      request, its location patched in place, and returned. */
  method FromDict(data: Input) returns (r: BusinessRiskData)
    ensures r == RiskData(data)
  {
    r := BusinessRiskData(
      companyName := Get(data, "companyName", Get(data, "company", Str(""))),
      industry := Get(data, "industry", Str(DefaultIndustry)),
      location := Get(data, "location", Str("")),
      yearsInOperation := Get(data, "yearsInOperation", Get(data, "yearsInBusiness", Int(0))),
      businessStructure := Get(data, "businessStructure", Str(DefaultStructure)),
      employeeCount := Get(data, "employeeCount", Int(0)),
      annualRevenue := Get(data, "annualRevenue", Get(data, "totalEquipmentCost", Int(0))),
      creditRating := Get(data, "creditRating", Str(DefaultCredit)),
      keyPersonnel := Get(data, "keyPersonnel", List([])),
      mainProducts := Get(data, "mainProducts", Get(data, "leadEquipments", List([]))),
      marketPosition := Get(data, "marketPosition", Str(DefaultPosition)),
      businessId := Get(data, "businessId", Str("")));
    if !Truthy(r.location) {
      var city := Get(data, "businessCity", Str(""));
      var state := Get(data, "businessState", Str(""));
      if Truthy(city) && Truthy(state) {
        r := r.(location := Str(Show(city) + ", " + Show(state)));
      } else if Truthy(city) {
        r := r.(location := city);
      }
    }
  }

  /** The location is truthy exactly when the request supplies a truthy
      location or a truthy city; a state alone is ignored. */
  lemma LocationTruthy(data: Input)
    ensures Truthy(RiskData(data).location)
            <==> Truthy(Get(data, "location", Str(""))) || Truthy(Get(data, "businessCity", Str("")))
  {
    var city := Get(data, "businessCity", Str(""));
    var state := Get(data, "businessState", Str(""));
    var composed := Show(city) + ", " + Show(state);
    assert composed[|Show(city)|] == ',';
  }

  /** Unlike the business-analysis record, which then holds `", "`, a request
      with no location, city or state leaves the location empty. */
  lemma NoLocationIsEmpty(data: Input)
    requires "location" !in data && "businessCity" !in data && "businessState" !in data
    ensures RiskData(data).location == Str("")
  {
  }

  /** An empty request yields the literal defaults of every field. */
  lemma EmptyRequestDefaults(data: Input)
    requires data == map[]
    ensures RiskData(data) == BusinessRiskData(
      Str(""), Str(DefaultIndustry), Str(""), Int(0), Str(DefaultStructure), Int(0), Int(0),
      Str(DefaultCredit), List([]), List([]), Str(DefaultPosition), Str(""))
  {
    ResolveNonePresent(data, ["companyName", "company"], Str(""));
    ResolveNonePresent(data, ["yearsInOperation", "yearsInBusiness"], Int(0));
    ResolveNonePresent(data, ["annualRevenue", "totalEquipmentCost"], Int(0));
    ResolveNonePresent(data, ["mainProducts", "leadEquipments"], List([]));
  }

  /** The alias is consulted only when the canonical key is absent: a present
      but empty `companyName` hides `company`. */
  lemma CanonicalKeyWins(data: Input)
    requires "companyName" in data && data["companyName"] == Str("")
    requires "company" in data && data["company"] == Str("Acme")
    ensures RiskData(data).companyName == Str("")
  {
    ResolveFirstPresent(data, ["companyName", "company"], Str(""), 0);
  }
}
