/** The business-analysis pipeline's records (app/business_analysis/service.py):
    the `BusinessAnalysis` result and the canonical `BusinessData` record that
    `BusinessData.__init__` builds from a loosely keyed request. */
module AnalysisRecords {
  import opened PyStr
  import opened PyValue

  /** Seven text fields of the analysis plus its identifier. */
  datatype BusinessAnalysis = BusinessAnalysis(
    industryClassification: string,
    marketPosition: string,
    growthPotential: string,
    strengthsAndAdvantages: string,
    marketOpportunities: string,
    strategicRecommendations: string,
    businessOverview: string,
    analysisId: string)

  /** True when every one of the seven text fields is non-empty. */
  predicate AllFieldsFilled(a: BusinessAnalysis) {
    a.industryClassification != "" && a.marketPosition != "" && a.growthPotential != ""
    && a.strengthsAndAdvantages != "" && a.marketOpportunities != ""
    && a.strategicRecommendations != "" && a.businessOverview != ""
  }

  datatype LegacyFields = LegacyFields(experianScore: Value, paynetScore: Value, isVendor: Value, documents: Value)

  /** The attributes `BusinessData.__init__` assigns. The source stores whatever
      value the request holds, so every attribute is an untyped `Value`. */
  datatype BusinessData = BusinessData(
    companyName: Value,
    industry: Value,
    businessType: Value,
    location: Value,
    yearsInOperation: Value,
    employeeCount: Value,
    annualRevenue: Value,
    totalAssets: Value,
    creditRating: Value,
    ownerFullName: Value,
    companyOwnershipPercent: Value,
    ssn: Value,
    homeStreetAddr: Value,
    homeCity: Value,
    homeState: Value,
    homeZip: Value,
    homePhone: Value,
    pgEmail: Value,
    primaryMarkets: Value,
    competitiveAdvantages: Value,
    businessModel: Value,
    keyProducts: Value,
    recentDevelopments: Value,
    additionalInfo: Value,
    legacyFields: LegacyFields)

  /** The location used when the request has no `location` key:
      `f"{businessCity}, {businessState}"`, each part defaulting to ''. */
  function ComposedLocation(kwargs: Input): (r: Value)
    ensures r.Str? && Strip(r.s) != ""
  {
    var l := Show(Get(kwargs, "businessCity", Str(""))) + ", " + Show(Get(kwargs, "businessState", Str("")));
    assert l[|l| - |Show(Get(kwargs, "businessState", Str("")))| - 2] == ',';
    assert !AllSpace(l);
    StripBlank(l);
    Str(l)
  }

  /** `BusinessData(**kwargs)`: each attribute comes from its canonical key,
      then from its legacy alias, then from a literal default, chosen by key
      presence (a present key wins even when its value is falsy). */
  function MakeBusinessData(kwargs: Input): (d: BusinessData)
    ensures d.companyName == Resolve(kwargs, ["companyName", "company"], Str(""))
    ensures d.industry == Resolve(kwargs, ["industry"], Str(""))
    ensures d.businessType == Resolve(kwargs, ["businessType", "businessStructure"], Str(""))
    ensures d.location == Resolve(kwargs, ["location"], ComposedLocation(kwargs))
    ensures d.yearsInOperation == Resolve(kwargs, ["yearsInOperation", "yearsInBusiness"], Int(0))
    ensures d.employeeCount == Resolve(kwargs, ["employeeCount"], Int(0))
    ensures d.annualRevenue == Resolve(kwargs, ["annualRevenue"], Int(0))
    ensures d.totalAssets == Resolve(kwargs, ["totalAssets", "totalEquipmentCost"], Int(0))
    ensures d.creditRating == Resolve(kwargs, ["creditRating"], Str(""))
    ensures d.ownerFullName == Resolve(kwargs, ["ownerFullName"], Str(""))
    ensures d.companyOwnershipPercent == Resolve(kwargs, ["companyOwnershipPercent"], Int(0))
    ensures d.ssn == Resolve(kwargs, ["ssn"], Str(""))
    ensures d.homeStreetAddr == Resolve(kwargs, ["homeStreetAddr"], Str(""))
    ensures d.homeCity == Resolve(kwargs, ["homeCity"], Str(""))
    ensures d.homeState == Resolve(kwargs, ["homeState"], Str(""))
    ensures d.homeZip == Resolve(kwargs, ["homeZip"], Str(""))
    ensures d.homePhone == Resolve(kwargs, ["homePhone"], Str(""))
    ensures d.pgEmail == Resolve(kwargs, ["pgEmail"], Str(""))
    ensures d.primaryMarkets == Resolve(kwargs, ["primaryMarkets"], List([]))
    ensures d.competitiveAdvantages == Resolve(kwargs, ["competitiveAdvantages"], List([]))
    ensures d.businessModel == Resolve(kwargs, ["businessModel"], Str(""))
    ensures d.keyProducts == Resolve(kwargs, ["keyProducts", "leadEquipments"], List([]))
    ensures d.recentDevelopments == Resolve(kwargs, ["recentDevelopments"], Str(""))
    ensures d.additionalInfo == Resolve(kwargs, ["additionalInfo"], Dict([]))
    ensures d.legacyFields.experianScore == Resolve(kwargs, ["experianScore"], Str(""))
    ensures d.legacyFields.paynetScore == Resolve(kwargs, ["paynetScore"], Str(""))
    ensures d.legacyFields.isVendor == Resolve(kwargs, ["isVendor"], Bool(false))
    ensures d.legacyFields.documents == Resolve(kwargs, ["documents"], List([]))
  {
    GetAlias(kwargs, "companyName", "company", Str(""));
    GetAlias(kwargs, "businessType", "businessStructure", Str(""));
    GetAlias(kwargs, "yearsInOperation", "yearsInBusiness", Int(0));
    GetAlias(kwargs, "totalAssets", "totalEquipmentCost", Int(0));
    GetAlias(kwargs, "keyProducts", "leadEquipments", List([]));
    GetSingle(kwargs, "industry", Str(""));
    GetSingle(kwargs, "location", ComposedLocation(kwargs));
    GetSingle(kwargs, "employeeCount", Int(0));
    GetSingle(kwargs, "annualRevenue", Int(0));
    GetSingle(kwargs, "creditRating", Str(""));
    GetSingle(kwargs, "ownerFullName", Str(""));
    GetSingle(kwargs, "companyOwnershipPercent", Int(0));
    GetSingle(kwargs, "ssn", Str(""));
    GetSingle(kwargs, "homeStreetAddr", Str(""));
    GetSingle(kwargs, "homeCity", Str(""));
    GetSingle(kwargs, "homeState", Str(""));
    GetSingle(kwargs, "homeZip", Str(""));
    GetSingle(kwargs, "homePhone", Str(""));
    GetSingle(kwargs, "pgEmail", Str(""));
    GetSingle(kwargs, "primaryMarkets", List([]));
    GetSingle(kwargs, "competitiveAdvantages", List([]));
    GetSingle(kwargs, "businessModel", Str(""));
    GetSingle(kwargs, "recentDevelopments", Str(""));
    GetSingle(kwargs, "additionalInfo", Dict([]));
    GetSingle(kwargs, "experianScore", Str(""));
    GetSingle(kwargs, "paynetScore", Str(""));
    GetSingle(kwargs, "isVendor", Bool(false));
    GetSingle(kwargs, "documents", List([]));
    BusinessData(
      companyName := Get(kwargs, "companyName", Get(kwargs, "company", Str(""))),
      industry := Get(kwargs, "industry", Str("")),
      businessType := Get(kwargs, "businessType", Get(kwargs, "businessStructure", Str(""))),
      location := Get(kwargs, "location", ComposedLocation(kwargs)),
      yearsInOperation := Get(kwargs, "yearsInOperation", Get(kwargs, "yearsInBusiness", Int(0))),
      employeeCount := Get(kwargs, "employeeCount", Int(0)),
      annualRevenue := Get(kwargs, "annualRevenue", Int(0)),
      totalAssets := Get(kwargs, "totalAssets", Get(kwargs, "totalEquipmentCost", Int(0))),
      creditRating := Get(kwargs, "creditRating", Str("")),
      ownerFullName := Get(kwargs, "ownerFullName", Str("")),
      companyOwnershipPercent := Get(kwargs, "companyOwnershipPercent", Int(0)),
      ssn := Get(kwargs, "ssn", Str("")),
      homeStreetAddr := Get(kwargs, "homeStreetAddr", Str("")),
      homeCity := Get(kwargs, "homeCity", Str("")),
      homeState := Get(kwargs, "homeState", Str("")),
      homeZip := Get(kwargs, "homeZip", Str("")),
      homePhone := Get(kwargs, "homePhone", Str("")),
      pgEmail := Get(kwargs, "pgEmail", Str("")),
      primaryMarkets := Get(kwargs, "primaryMarkets", List([])),
      competitiveAdvantages := Get(kwargs, "competitiveAdvantages", List([])),
      businessModel := Get(kwargs, "businessModel", Str("")),
      keyProducts := Get(kwargs, "keyProducts", Get(kwargs, "leadEquipments", List([]))),
      recentDevelopments := Get(kwargs, "recentDevelopments", Str("")),
      additionalInfo := Get(kwargs, "additionalInfo", Dict([])),
      legacyFields := LegacyFields(
        experianScore := Get(kwargs, "experianScore", Str("")),
        paynetScore := Get(kwargs, "paynetScore", Str("")),
        isVendor := Get(kwargs, "isVendor", Bool(false)),
        documents := Get(kwargs, "documents", List([]))))
  }

  /** Without `location`, `businessCity` and `businessState` the location is
      ", ", which is not blank after stripping. */
  lemma EmptyLocationIsComma(kwargs: Input)
    requires "location" !in kwargs && "businessCity" !in kwargs && "businessState" !in kwargs
    ensures MakeBusinessData(kwargs).location == Str(", ")
    ensures Strip(MakeBusinessData(kwargs).location.s) == ","
  {
    ComposedLocationEmpty(kwargs);
    assert ["location"][1..] == [];
    StripCommaSpace();
  }

  lemma ComposedLocationEmpty(kwargs: Input)
    requires "businessCity" !in kwargs && "businessState" !in kwargs
    ensures ComposedLocation(kwargs) == Str(", ")
  {
    assert Get(kwargs, "businessCity", Str("")) == Str("");
    assert Get(kwargs, "businessState", Str("")) == Str("");
  }

  lemma StripCommaSpace()
    ensures Strip(", ") == ","
  {
    var s := ", ";
    assert SkipSpace(s, 0) == 0;
    assert TrimEnd(s, 0, 1) == 1;
    assert TrimEnd(s, 0, 2) == 1;
    assert s[0..1] == ",";
  }

  /** The canonical key wins by presence: an empty `companyName` hides `company`. */
  lemma CanonicalKeyWinsWhenFalsy(kwargs: Input)
    requires "companyName" in kwargs && kwargs["companyName"] == Str("")
    requires "company" in kwargs && kwargs["company"] == Str("Acme")
    ensures MakeBusinessData(kwargs).companyName == Str("")
  {
    ResolveFirstPresent(kwargs, ["companyName", "company"], Str(""), 0);
  }
}
