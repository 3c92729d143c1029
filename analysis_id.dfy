/** `BusinessAnalysisService._generate_analysis_id`
    (app/business_analysis/service.py): the company name, cleaned, followed by
    `_BA_` and the Unix time in seconds, with the name cut to 30 characters when
    the whole identifier would exceed 60. The clock reading is a parameter. */
module AnalysisId {
  import opened Wrappers
  import opened PyStr
  import opened PyValue

  /** Characters the filter keeps: `c.isalnum() or c in [' ', '-', '_']`. */
  predicate Kept(c: char) {
    IsAlnum(c) || c == ' ' || c == '-' || c == '_'
  }

  /** Characters a cleaned name is made of. */
  predicate IdChar(c: char) {
    IsAsciiUpper(c) || IsDigit(c) || c == '-' || c == '_'
  }

  /** `replace(' ', '_')` followed by `upper()`, on one kept character. */
  function CleanChar(c: char): (r: char)
    requires Kept(c)
    ensures IdChar(r)
    ensures IdChar(c) ==> r == c
  {
    if c == ' ' then '_' else ToUpper(c)
  }

  /** `''.join(c for c in name if kept(c)).replace(' ', '_').upper()`. */
  function CleanName(s: string): string
  {
    if s == [] then [] else Cleaned(s[0]) + CleanName(s[1..])
  }

  /** What one character of the name contributes. */
  function Cleaned(c: char): (r: string)
    ensures |r| <= 1 && (Kept(c) <==> |r| == 1)
    ensures forall i :: 0 <= i < |r| ==> IdChar(r[i])
  {
    if Kept(c) then [CleanChar(c)] else []
  }

  /** A cleaned name is made of identifier characters, is no longer than the
      name, and keeps every character of a name that holds only kept ones. */
  lemma {:induction false} CleanNameChars(s: string)
    ensures |CleanName(s)| <= |s|
    ensures AllIdChars(CleanName(s))
    ensures (forall i :: 0 <= i < |s| ==> Kept(s[i])) ==> |CleanName(s)| == |s|
  {
    if s != [] {
      CleanNameChars(s[1..]);
      assert forall i :: 1 <= i < |s| ==> s[i] == s[1..][i - 1];
      IdCharsConcat(Cleaned(s[0]), CleanName(s[1..]));
    }
  }

  /** Cleaning works character by character. */
  lemma {:induction false} CleanNameAppend(a: string, b: string)
    ensures CleanName(a + b) == CleanName(a) + CleanName(b)
  {
    if a == [] {
      assert a + b == b;
    } else {
      calc {
        CleanName(a + b);
        { assert (a + b)[0] == a[0] && (a + b)[1..] == a[1..] + b; }
        Cleaned(a[0]) + CleanName(a[1..] + b);
        { CleanNameAppend(a[1..], b); }
        Cleaned(a[0]) + (CleanName(a[1..]) + CleanName(b));
        (Cleaned(a[0]) + CleanName(a[1..])) + CleanName(b);
      }
    }
  }

  /** A name made only of identifier characters is already clean. */
  lemma {:induction false} CleanNameFixes(s: string)
    requires forall i :: 0 <= i < |s| ==> IdChar(s[i])
    ensures CleanName(s) == s
  {
    if s != [] {
      assert forall i :: 0 <= i < |s[1..]| ==> s[1..][i] == s[i + 1];
      CleanNameFixes(s[1..]);
    }
  }

  /** Cleaning is idempotent. */
  lemma CleanNameIdempotent(s: string)
    ensures CleanName(CleanName(s)) == CleanName(s)
  {
    CleanNameChars(s);
    CleanNameFixes(CleanName(s));
  }

  /** Hyphens are kept, spaces become underscores, other punctuation is dropped
      and letters are upper-cased. */
  lemma CleanNameExample()
    ensures CleanName("a b!") == "A_B"
    ensures CleanName("x-1") == "X-1"
  {
  }

  /** `"Tech Corp!!"` cleans to `"TECH_CORP"`. */
  lemma TechCorpExample(name: string)
    requires name == "Tech Corp!!"
    ensures CleanName(name) == "TECH_CORP"
  {
    TechCorpWords(name);
    CleanNameAppend4("Tech", " ", "Corp", "!!");
    CleanPieces();
  }

  lemma TechCorpWords(name: string)
    requires name == "Tech Corp!!"
    ensures name == "Tech" + " " + "Corp" + "!!"
    ensures "TECH" + "_" + "CORP" + "" == "TECH_CORP"
  {
  }

  lemma CleanNameAppend4(a: string, b: string, c: string, d: string)
    ensures CleanName(a + b + c + d) == CleanName(a) + CleanName(b) + CleanName(c) + CleanName(d)
  {
    CleanNameAppend(a + b + c, d);
    CleanNameAppend(a + b, c);
    CleanNameAppend(a, b);
  }

  /** The pieces of `"Tech Corp!!"`, cleaned. */
  lemma CleanPieces()
    ensures CleanName("Tech") == "TECH" && CleanName(" ") == "_"
    ensures CleanName("Corp") == "CORP" && CleanName("!!") == ""
  {
  }

  function Min(a: int, b: int): int { if a < b then a else b }

  predicate AllIdChars(s: string) {
    forall i :: 0 <= i < |s| ==> IdChar(s[i])
  }

  lemma IdCharsConcat(a: string, b: string)
    requires AllIdChars(a) && AllIdChars(b)
    ensures AllIdChars(a + b)
  {
    forall i | 0 <= i < |a + b| ensures IdChar((a + b)[i]) {
      if i < |a| { assert (a + b)[i] == a[i]; } else { assert (a + b)[i] == b[i - |a|]; }
    }
  }

  /** The 60/30 length rule applied to a cleaned name and its `_BA_<timestamp>` tail. */
  function LengthRule(clean: string, tail: string): (id: string)
    ensures EndsWith(id, tail)
    ensures id[..|id| - |tail|] <= clean
    ensures |clean| + |tail| <= 60 ==> id[..|id| - |tail|] == clean && id == clean + tail
    ensures |clean| + |tail| > 60 ==> |id[..|id| - |tail|]| == Min(30, |clean|)
  {
    var analysisId := clean + tail;
    var head := if |analysisId| > 60 then clean[..Min(30, |clean|)] else clean;
    var id := head + tail;
    assert id[..|head|] == head && id[|head|..] == tail;
    id
  }

  /** The identifier built from a company name that is a string. */
  function IdFor(name: string, timestamp: nat): (id: string)
    ensures var clean, tail := CleanName(name), "_BA_" + NatToStr(timestamp);
      && EndsWith(id, tail)
      && var head := id[..|id| - |tail|];
      && head <= clean
      && (|clean| + |tail| <= 60 ==> head == clean)
      && (|clean| + |tail| > 60 ==> |head| == Min(30, |clean|))
    ensures AllIdChars(id)
  {
    var timestampText := NatToStr(timestamp);
    var cleanCompany := CleanName(name);
    var tail := "_BA_" + timestampText;
    var id := LengthRule(cleanCompany, tail);
    CleanNameChars(name);
    IdTailChars(timestampText);
    IdCharsConcat(id[..|id| - |tail|], tail);
    assert id == id[..|id| - |tail|] + tail;
    id
  }

  lemma IdTailChars(digits: string)
    requires forall i :: 0 <= i < |digits| ==> IsDigit(digits[i])
    ensures AllIdChars("_BA_" + digits)
  {
    var t := "_BA_" + digits;
    forall i | 0 <= i < |t| ensures IdChar(t[i]) {
      if i >= 4 { assert t[i] == digits[i - 4]; }
    }
  }

  /** The name a request supplies: `companyName`, else `company`, else
      "UNKNOWN_COMPANY". */
  function CompanyName(businessData: Input): (v: Value)
    ensures v == Resolve(businessData, ["companyName", "company"], Str("UNKNOWN_COMPANY"))
  {
    GetAlias(businessData, "companyName", "company", Str("UNKNOWN_COMPANY"));
    Get(businessData, "companyName", Get(businessData, "company", Str("UNKNOWN_COMPANY")))
  }

  /** `c.isalnum() or c in [' ', '-', '_']` for one item `c` of the iterated
      name: a character when the name is a string, a whole string when it is a
      list of strings or the key of a dict. */
  predicate KeptItem(c: string) {
    (|c| > 0 && forall i :: 0 <= i < |c| ==> IsAlnum(c[i])) || c == " " || c == "-" || c == "_"
  }

  /** `''.join(c for c in items if kept(c))`. */
  function KeptText(items: seq<string>): string
  {
    if items == [] then "" else (if KeptItem(items[0]) then items[0] else "") + KeptText(items[1..])
  }

  /** The joined text of the kept items of the name. A value that cannot be
      iterated raises TypeError; an item that is not a string has no `isalnum`
      and raises AttributeError. */
  function NameText(name: Value): (r: Result<string>)
    ensures !(name.Str? || name.List? || name.Dict?) ==> r == Failure(TypeError)
    ensures name.Str? || name.Dict? ==> r.Success?
    ensures name.List? ==> (r.Success? <==> forall k :: 0 <= k < |name.items| ==> name.items[k].Str?)
    ensures name.List? && r.Failure? ==> r == Failure(AttributeError)
  {
    var items :- Iterate(name);
    match Strings(items)
    case None => Failure(AttributeError)
    case Some(parts) => Success(KeptText(parts))
  }

  /** For a string name, the kept text cleans to what the name itself cleans to. */
  lemma NameTextOfString(s: string)
    ensures NameText(Str(s)).Success?
    ensures CleanName(NameText(Str(s)).value) == CleanName(s)
  {
    var chars := seq(|s|, k requires 0 <= k < |s| => [s[k]]);
    var vs := Iterate(Str(s)).value;
    assert forall k :: 0 <= k < |vs| ==> vs[k] == Str([s[k]]);
    var ss := Strings(vs).value;
    assert forall k :: 0 <= k < |ss| ==> ss[k] == chars[k];
    assert ss == chars;
    KeptTextOfChars(s);
  }

  lemma {:induction false} KeptTextOfChars(s: string)
    ensures CleanName(KeptText(seq(|s|, k requires 0 <= k < |s| => [s[k]]))) == CleanName(s)
  {
    var chars := seq(|s|, k requires 0 <= k < |s| => [s[k]]);
    if s != [] {
      var rest := seq(|s[1..]|, k requires 0 <= k < |s[1..]| => [s[1..][k]]);
      assert chars[0] == [s[0]] && chars[1..] == rest;
      assert KeptItem([s[0]]) <==> Kept(s[0]);
      var head := if Kept(s[0]) then [s[0]] else "";
      assert KeptText(chars) == head + KeptText(rest);
      KeptTextOfChars(s[1..]);
      CleanNameAppend(head, KeptText(rest));
      assert CleanName(head) == Cleaned(s[0]) by {
        if Kept(s[0]) { assert head[1..] == []; }
      }
    }
  }

  /** The identifier for a request: the kept text of the company name, cleaned,
      with the `_BA_<timestamp>` tail and the length rule. A string name gives
      the identifier of its own cleaned text. */
  function GenerateAnalysisId(businessData: Input, timestamp: nat): (r: Result<string>)
    ensures r.Success? <==> NameText(CompanyName(businessData)).Success?
    ensures r.Failure? ==> r.error == NameText(CompanyName(businessData)).error
    ensures r.Success? ==> r.value == IdFor(NameText(CompanyName(businessData)).value, timestamp)
    ensures CompanyName(businessData).Str? ==> r == Success(IdFor(CompanyName(businessData).s, timestamp))
  {
    var name := CompanyName(businessData);
    var text :- NameText(name);
    if name.Str? then
      NameTextOfString(name.s);
      Success(IdFor(text, timestamp))
    else Success(IdFor(text, timestamp))
  }

  /** A name that is already clean and short enough appears unchanged. */
  lemma IdForCleanName(name: string, timestamp: nat)
    requires CleanName(name) == name
    requires |name| + 4 + |NatToStr(timestamp)| <= 60
    ensures IdFor(name, timestamp) == name + "_BA_" + NatToStr(timestamp)
  {
    var tail := "_BA_" + NatToStr(timestamp);
    assert IdFor(name, timestamp) == LengthRule(CleanName(name), tail);
  }

  /** With no name keys the company name is "UNKNOWN_COMPANY". */
  lemma UnknownCompanyName(businessData: Input)
    requires "companyName" !in businessData && "company" !in businessData
    ensures CompanyName(businessData) == Str("UNKNOWN_COMPANY")
  {
    ResolveNonePresent(businessData, ["companyName", "company"], Str("UNKNOWN_COMPANY"));
  }

  /** With no name keys the identifier is `UNKNOWN_COMPANY_BA_<timestamp>` (for
      any clock reading of at most ten digits, which keeps it within 60). */
  lemma UnknownCompanyId(businessData: Input, timestamp: nat)
    requires "companyName" !in businessData && "company" !in businessData
    requires timestamp < 10_000_000_000
    ensures GenerateAnalysisId(businessData, timestamp) == Success("UNKNOWN_COMPANY" + "_BA_" + NatToStr(timestamp))
  {
    assert Pow10(10) == 10_000_000_000;
    NatToStrLength(timestamp, 10);
    UnknownCompanyName(businessData);
    var name := CompanyName(businessData).s;
    UnknownCompanyIsClean(name);
    IdForCleanName(name, timestamp);
    assert GenerateAnalysisId(businessData, timestamp) == Success(IdFor(name, timestamp));
  }

  lemma UnknownCompanyIsClean(name: string)
    requires name == "UNKNOWN_COMPANY"
    ensures CleanName(name) == name
  {
    assert AllIdChars(name);
    CleanNameFixes(name);
  }
}
