/**
 * The manifest configuration source (ManifestReader.kt): `<meta-data>` entries
 * of the app manifest are mapped onto the configuration record. The metadata
 * bundle is a map from key to the `toString()` text of its value; whether a
 * text parses as an absolute URI (`Uri.parse(text).isAbsolute`) is a predicate
 * the caller supplies.
 */
module ManifestReader {
  import opened Wrappers
  import opened Numerals
  import opened JsonTree
  import opened CmpExceptions
  import opened Tools
  import opened CmpConfigObject

  /** The application's metadata: each key's value, as its `toString()` text. */
  type MetaData = map<string, string>

  const PREVENT_KEY_BACK := "CNVR_CMP_Prevent_Key_Back"
  const MIN_SHOW_DAYS := "CNVR_CMP_Min_Show_Days"

  /** `getMetaData(key)?.toString()`: null when the key is absent. */
  function GetMetaData(md: MetaData, key: string): (r: Option<string>)
    ensures r.Some? <==> key in md
    ensures r.Some? ==> r.value == md[key]
  {
    if key in md then Some(md[key]) else None
  }

  /** `getMetaData(key).toString()` without the safe call: an absent key reads "null". */
  function MetaDataText(md: MetaData, key: string): (t: string)
    ensures key !in md ==> t == "null"
    ensures key in md ==> t == md[key]
  {
    GetMetaData(md, key).GetOr("null")
  }

  /**
   * `getUri(key)?.toString()`: the text, kept only when it parses as an absolute
   * URI (a parsed `Uri` prints back the text it was parsed from).
   */
  function GetUri(md: MetaData, isAbsolute: string -> bool, key: string): (r: Option<string>)
    ensures r.Some? <==> isAbsolute(MetaDataText(md, key))
    ensures r.Some? ==> r.value == MetaDataText(md, key)
  {
    var text := MetaDataText(md, key);
    if isAbsolute(text) then Some(text) else None
  }

  /** Kotlin `String.toBoolean()`: "true" in any letter case. */
  predicate ToBoolean(s: string) {
    EqualsIgnoreCase(s, "true")
  }

  /** `getMetaData(key)?.toString()?.toBoolean()`. */
  function GetBoolean(md: MetaData, key: string): (r: Option<bool>)
    ensures r.Some? <==> key in md
    ensures r == Some(true) <==> key in md && ToBoolean(md[key])
  {
    if key in md then Some(ToBoolean(md[key])) else None
  }

  /** `Tools.stringToIntJSONArray(getMetaData(key)?.toString())`, as the JSON array the record holds. */
  function GetIntList(md: MetaData, key: string): (r: IdList)
    ensures key !in md ==> r == None
    ensures r.Some? <==> StringToIntJsonArray(GetMetaData(md, key)).Some?
    ensures r.Some? ==> |r.value| == |StringToIntJsonArray(GetMetaData(md, key)).value|
    ensures r.Some? ==> forall i | 0 <= i < |r.value| :: r.value[i] == JInt(StringToIntJsonArray(GetMetaData(md, key)).value[i])
  {
    match StringToIntJsonArray(GetMetaData(md, key))
    case None => None
    case Some(xs) => Some(seq(|xs|, i requires 0 <= i < |xs| => JInt(xs[i])))
  }

  /** `preventBack`: true only when the key reads "true"; an absent key reads "null". */
  predicate PreventBack(md: MetaData) {
    ToBoolean(MetaDataText(md, PREVENT_KEY_BACK))
  }

  // How a field relates to the metadata under its key, one predicate per kind of read.

  /** `f` holds `getMetaData(key)?.toString()`: the text under `key`, null when absent. */
  predicate ReadsText(f: Field, md: MetaData, key: string) {
    (f.Some? <==> key in md) && (f.Some? ==> f.value == md[key])
  }

  /** `f` holds `getUri(key)?.toString()`: the key's text when it is an absolute URI, else null. */
  predicate ReadsUri(f: Field, md: MetaData, isAbsolute: string -> bool, key: string) {
    (f.Some? <==> isAbsolute(MetaDataText(md, key))) && (f.Some? ==> f.value == MetaDataText(md, key))
  }

  /** `f` holds `getMetaData(key)?.toString()?.toBoolean()`. */
  predicate ReadsBool(f: Option<bool>, md: MetaData, key: string) {
    (f.Some? <==> key in md) && (f.Some? ==> (f.value <==> ToBoolean(md[key])))
  }

  // ---------------------------------------------------------------------------
  // What `getConfigFromManifest` assigns, section by section

  function ManifestGvl(md: MetaData, isAbsolute: string -> bool): (g: Gvl)
    ensures ReadsUri(g.baseUrl, md, isAbsolute, "CNVR_CMP_GVL_Base_URL")
    ensures ReadsUri(g.latest, md, isAbsolute, "CNVR_CMP_GVL_Latest")
    ensures ReadsUri(g.versioned, md, isAbsolute, "CNVR_CMP_GVL_Versioned")
  {
    Gvl(baseUrl := GetUri(md, isAbsolute, "CNVR_CMP_GVL_Base_URL"),
        latest := GetUri(md, isAbsolute, "CNVR_CMP_GVL_Latest"),
        versioned := GetUri(md, isAbsolute, "CNVR_CMP_GVL_Versioned"))
  }

  function ManifestCustomUI(md: MetaData): (u: CustomUI)
    ensures ReadsText(u.backgroundColor, md, "CNVR_CMP_Custom_UI_Background_Color")
    ensures ReadsText(u.borderRadiusButton, md, "CNVR_CMP_Custom_UI_Border_Radius_Button")
    ensures ReadsText(u.linkColor, md, "CNVR_CMP_Custom_UI_Link_Color")
    ensures ReadsText(u.primaryColor, md, "CNVR_CMP_Custom_UI_Primary_Color")
    ensures ReadsText(u.textColor, md, "CNVR_CMP_Custom_UI_Text_Color")
  {
    CustomUI(backgroundColor := GetMetaData(md, "CNVR_CMP_Custom_UI_Background_Color"),
             borderRadiusButton := GetMetaData(md, "CNVR_CMP_Custom_UI_Border_Radius_Button"),
             linkColor := GetMetaData(md, "CNVR_CMP_Custom_UI_Link_Color"),
             primaryColor := GetMetaData(md, "CNVR_CMP_Custom_UI_Primary_Color"),
             textColor := GetMetaData(md, "CNVR_CMP_Custom_UI_Text_Color"))
  }

  function ManifestLegalBases(md: MetaData): (b: LegalBases)
    ensures b.feature == GetIntList(md, "CNVR_CMP_Legal_Bases_Features")
    ensures b.purposeConsent == GetIntList(md, "CNVR_CMP_Legal_Bases_Purpose_Consent")
    ensures b.purposeLegitimateInterest == GetIntList(md, "CNVR_CMP_Legal_Bases_Purpose_Legitimate_Interest")
    ensures b.specialFeature == GetIntList(md, "CNVR_CMP_Legal_Bases_Special_Feature")
    ensures b.specialPurpose == GetIntList(md, "CNVR_CMP_Legal_Bases_Special_Purpose")
  {
    LegalBases(feature := GetIntList(md, "CNVR_CMP_Legal_Bases_Features"),
               purposeConsent := GetIntList(md, "CNVR_CMP_Legal_Bases_Purpose_Consent"),
               purposeLegitimateInterest := GetIntList(md, "CNVR_CMP_Legal_Bases_Purpose_Legitimate_Interest"),
               specialFeature := GetIntList(md, "CNVR_CMP_Legal_Bases_Special_Feature"),
               specialPurpose := GetIntList(md, "CNVR_CMP_Legal_Bases_Special_Purpose"))
  }

  function ManifestLanding(md: MetaData): (l: Landing)
    ensures ReadsText(l.body.p1, md, "CNVR_CMP_Text_Landing_Body_P1")
    ensures ReadsText(l.body.p2, md, "CNVR_CMP_Text_Landing_Body_P2")
    ensures ReadsText(l.cta, md, "CNVR_CMP_Text_Landing_CTA")
    ensures ReadsText(l.reviewLink, md, "CNVR_CMP_Text_Landing_Review_Link")
    ensures ReadsText(l.seeMoreLink.seeMore, md, "CNVR_CMP_Text_Landing_See_More")
    ensures ReadsText(l.seeMoreLink.seeLess, md, "CNVR_CMP_Text_Landing_See_Less")
    ensures ReadsText(l.title, md, "CNVR_CMP_Text_Landing_Title")
  {
    Landing(body := LandingBody(GetMetaData(md, "CNVR_CMP_Text_Landing_Body_P1"),
                                GetMetaData(md, "CNVR_CMP_Text_Landing_Body_P2")),
            cta := GetMetaData(md, "CNVR_CMP_Text_Landing_CTA"),
            reviewLink := GetMetaData(md, "CNVR_CMP_Text_Landing_Review_Link"),
            seeMoreLink := SeeMoreLink(GetMetaData(md, "CNVR_CMP_Text_Landing_See_More"),
                                       GetMetaData(md, "CNVR_CMP_Text_Landing_See_Less")),
            title := GetMetaData(md, "CNVR_CMP_Text_Landing_Title"))
  }

  /** The Companies tab; its header reads the two "special" keys crosswise. */
  function ManifestCompanies(md: MetaData, isAbsolute: string -> bool): (c: Companies)
    ensures ReadsText(c.header.consent, md, "CNVR_CMP_Text_Review_Tabs_Companies_Header_Consent")
    ensures ReadsText(c.header.feature, md, "CNVR_CMP_Text_Review_Tabs_Companies_Header_Feature")
    ensures ReadsText(c.header.legInt, md, "CNVR_CMP_Text_Review_Tabs_Companies_Header_Leg_Int")
    ensures ReadsText(c.header.specialFeature, md, "CNVR_CMP_Text_Review_Tabs_Companies_Header_Special_Purpose")
    ensures ReadsText(c.header.specialPurpose, md, "CNVR_CMP_Text_Review_Tabs_Companies_Header_Special_Feature")
    ensures ReadsUri(c.privacyPolicyLink, md, isAbsolute, "CNVR_CMP_Text_Review_Tabs_Companies_Privacy_Policy_Link")
    ensures ReadsText(c.tabTitle, md, "CNVR_CMP_Text_Review_Tabs_Companies_Tab_Title")
  {
    Companies(header := Header(consent := GetMetaData(md, "CNVR_CMP_Text_Review_Tabs_Companies_Header_Consent"),
                               feature := GetMetaData(md, "CNVR_CMP_Text_Review_Tabs_Companies_Header_Feature"),
                               legInt := GetMetaData(md, "CNVR_CMP_Text_Review_Tabs_Companies_Header_Leg_Int"),
                               specialFeature := GetMetaData(md, "CNVR_CMP_Text_Review_Tabs_Companies_Header_Special_Purpose"),
                               specialPurpose := GetMetaData(md, "CNVR_CMP_Text_Review_Tabs_Companies_Header_Special_Feature")),
              privacyPolicyLink := GetUri(md, isAbsolute, "CNVR_CMP_Text_Review_Tabs_Companies_Privacy_Policy_Link"),
              tabTitle := GetMetaData(md, "CNVR_CMP_Text_Review_Tabs_Companies_Tab_Title"))
  }

  /** The Purposes tab: every field except `tabTitle`, which the manifest never sets. */
  function ManifestPurposes(p: Purposes, md: MetaData): (p': Purposes)
    ensures p'.tabTitle == p.tabTitle
    ensures ReadsText(p'.header.consent, md, "CNVR_CMP_Text_Review_Tabs_Purposes_Header_Consent")
    ensures ReadsText(p'.header.feature, md, "CNVR_CMP_Text_Review_Tabs_Purposes_Header_Feature")
    ensures ReadsText(p'.header.legInt, md, "CNVR_CMP_Text_Review_Tabs_Purposes_Header_Leg_Int")
    ensures ReadsText(p'.header.specialFeature, md, "CNVR_CMP_Text_Review_Tabs_Purposes_Header_Special_Feature")
    ensures ReadsText(p'.header.specialPurpose, md, "CNVR_CMP_Text_Review_Tabs_Purposes_Header_Special_Purpose")
    ensures ReadsText(p'.labels.feature, md, "CNVR_CMP_Text_Review_Tabs_Purposes_Label_Feature")
    ensures ReadsText(p'.labels.purpose, md, "CNVR_CMP_Text_Review_Tabs_Purposes_Label_Purpose")
    ensures ReadsText(p'.labels.specialFeature, md, "CNVR_CMP_Text_Review_Tabs_Purposes_Label_Special_Feature")
    ensures ReadsText(p'.labels.specialPurpose, md, "CNVR_CMP_Text_Review_Tabs_Purposes_Label_Special_Purpose")
    ensures ReadsText(p'.legalDescription.hide, md, "CNVR_CMP_Text_Review_Tabs_Purposes_Legal_Description_Hide")
    ensures ReadsText(p'.legalDescription.show, md, "CNVR_CMP_Text_Review_Tabs_Purposes_Legal_Description_Show")
    ensures ReadsText(p'.companyList.hide, md, "CNVR_CMP_Text_Review_Tabs_Purposes_Company_List_Hide")
    ensures ReadsText(p'.companyList.no, md, "CNVR_CMP_Text_Review_Tabs_Purposes_Company_List_No")
    ensures ReadsText(p'.companyList.show, md, "CNVR_CMP_Text_Review_Tabs_Purposes_Company_List_Show")
  {
    p.(header := Header(consent := GetMetaData(md, "CNVR_CMP_Text_Review_Tabs_Purposes_Header_Consent"),
                        feature := GetMetaData(md, "CNVR_CMP_Text_Review_Tabs_Purposes_Header_Feature"),
                        legInt := GetMetaData(md, "CNVR_CMP_Text_Review_Tabs_Purposes_Header_Leg_Int"),
                        specialFeature := GetMetaData(md, "CNVR_CMP_Text_Review_Tabs_Purposes_Header_Special_Feature"),
                        specialPurpose := GetMetaData(md, "CNVR_CMP_Text_Review_Tabs_Purposes_Header_Special_Purpose")),
       labels := Label(feature := GetMetaData(md, "CNVR_CMP_Text_Review_Tabs_Purposes_Label_Feature"),
                       purpose := GetMetaData(md, "CNVR_CMP_Text_Review_Tabs_Purposes_Label_Purpose"),
                       specialFeature := GetMetaData(md, "CNVR_CMP_Text_Review_Tabs_Purposes_Label_Special_Feature"),
                       specialPurpose := GetMetaData(md, "CNVR_CMP_Text_Review_Tabs_Purposes_Label_Special_Purpose")),
       legalDescription := LegalDescription(GetMetaData(md, "CNVR_CMP_Text_Review_Tabs_Purposes_Legal_Description_Hide"),
                                            GetMetaData(md, "CNVR_CMP_Text_Review_Tabs_Purposes_Legal_Description_Show")),
       companyList := CompanyList(GetMetaData(md, "CNVR_CMP_Text_Review_Tabs_Purposes_Company_List_Hide"),
                                  GetMetaData(md, "CNVR_CMP_Text_Review_Tabs_Purposes_Company_List_No"),
                                  GetMetaData(md, "CNVR_CMP_Text_Review_Tabs_Purposes_Company_List_Show")))
  }

  function ManifestReview(r: Review, md: MetaData, isAbsolute: string -> bool): (r': Review)
    ensures r'.tabs.purposes.tabTitle == r.tabs.purposes.tabTitle
    ensures r'.tabs.companies == ManifestCompanies(md, isAbsolute)
    ensures r'.tabs.purposes == ManifestPurposes(r.tabs.purposes, md)
    ensures ReadsText(r'.buttons.allow, md, "CNVR_CMP_Text_Review_Buttons_Allow")
    ensures ReadsText(r'.buttons.deny, md, "CNVR_CMP_Text_Review_Buttons_Deny")
    ensures ReadsText(r'.buttons.optOut, md, "CNVR_CMP_Text_Review_Buttons_Opt_Out")
    ensures ReadsText(r'.footer.allowAll, md, "CNVR_CMP_Text_Review_Footer_Allow_All")
    ensures ReadsText(r'.footer.cta, md, "CNVR_CMP_Text_Review_Footer_CTA")
    ensures ReadsText(r'.footer.denyAll, md, "CNVR_CMP_Text_Review_Footer_Deny_All")
    ensures ReadsText(r'.introBody, md, "CNVR_CMP_Text_Review_Intro_Body")
  {
    Review(tabs := Tabs(ManifestCompanies(md, isAbsolute), ManifestPurposes(r.tabs.purposes, md)),
           buttons := Buttons(GetMetaData(md, "CNVR_CMP_Text_Review_Buttons_Allow"),
                              GetMetaData(md, "CNVR_CMP_Text_Review_Buttons_Deny"),
                              GetMetaData(md, "CNVR_CMP_Text_Review_Buttons_Opt_Out")),
           footer := Footer(allowAll := GetMetaData(md, "CNVR_CMP_Text_Review_Footer_Allow_All"),
                            cta := GetMetaData(md, "CNVR_CMP_Text_Review_Footer_CTA"),
                            denyAll := GetMetaData(md, "CNVR_CMP_Text_Review_Footer_Deny_All")),
           introBody := GetMetaData(md, "CNVR_CMP_Text_Review_Intro_Body"))
  }

  /** The first-tier values read before `minShowDays`. */
  function ManifestFirstTier(c: ConfigValue, md: MetaData, isAbsolute: string -> bool): (c': ConfigValue)
    ensures c'.(brandingImg := c.brandingImg, countryCode := c.countryCode, cssOverride := c.cssOverride,
                gdprAppliesGlobally := c.gdprAppliesGlobally, language := c.language, legalName := c.legalName) == c
    ensures FirstTierRead(c', md, isAbsolute)
  {
    c.(brandingImg := GetUri(md, isAbsolute, "CNVR_CMP_Branding_Img"),
       countryCode := GetMetaData(md, "CNVR_CMP_Country_Code"),
       cssOverride := GetUri(md, isAbsolute, "CNVR_CMP_CSS_Override"),
       gdprAppliesGlobally := GetBoolean(md, "CNVR_CMP_GDPR_Applies_Globally"),
       language := GetMetaData(md, "CNVR_CMP_Lang"),
       legalName := GetMetaData(md, "CNVR_CMP_Legal_Name"))
  }

  /** The six first-tier fields as read from their keys. */
  predicate FirstTierRead(c: ConfigValue, md: MetaData, isAbsolute: string -> bool) {
    && ReadsUri(c.brandingImg, md, isAbsolute, "CNVR_CMP_Branding_Img")
    && ReadsText(c.countryCode, md, "CNVR_CMP_Country_Code")
    && ReadsUri(c.cssOverride, md, isAbsolute, "CNVR_CMP_CSS_Override")
    && ReadsBool(c.gdprAppliesGlobally, md, "CNVR_CMP_GDPR_Applies_Globally")
    && ReadsText(c.language, md, "CNVR_CMP_Lang")
    && ReadsText(c.legalName, md, "CNVR_CMP_Legal_Name")
  }

  /** Every section assigned before `minShowDays`, as read from the metadata. */
  predicate PrefixRead(c: ConfigValue, review: Review, md: MetaData, isAbsolute: string -> bool) {
    && FirstTierRead(c, md, isAbsolute)
    && c.gvl == ManifestGvl(md, isAbsolute)
    && c.customUI == ManifestCustomUI(md)
    && c.legalBases == ManifestLegalBases(md)
    && c.text == Text(ManifestLanding(md), ManifestReview(review, md, isAbsolute))
  }

  /** The four fields after `minShowDays` as read from their keys. */
  predicate RestRead(c: ConfigValue, md: MetaData, isAbsolute: string -> bool) {
    && ReadsBool(c.onGVL, md, "CNVR_CMP_On_GVL")
    && ReadsUri(c.policyUrl, md, isAbsolute, "CNVR_CMP_Policy_URL")
    && c.vendors == GetIntList(md, "CNVR_CMP_Vendors")
    && ReadsText(c.version, md, "CNVR_CMP_Config_Version")
  }

  /** Everything `getConfigFromManifest` assigns before it reaches `minShowDays`. */
  function ManifestPrefix(c: ConfigValue, md: MetaData, isAbsolute: string -> bool): ConfigValue {
    ManifestFirstTier(c, md, isAbsolute).(
      gvl := ManifestGvl(md, isAbsolute),
      customUI := ManifestCustomUI(md),
      legalBases := ManifestLegalBases(md),
      text := Text(ManifestLanding(md), ManifestReview(c.text.review, md, isAbsolute)))
  }

  /** `getMetaData(key)?.toString()?.toInt()`: null when absent, NumberFormatException when not an `Int`. */
  function MinShowDays(md: MetaData): (r: Result<Option<Int32>, CmpError>)
    ensures MIN_SHOW_DAYS !in md ==> r == Success(None)
    ensures r.Failure? <==> MIN_SHOW_DAYS in md && ParseInt(md[MIN_SHOW_DAYS]).None?
    ensures r.Failure? ==> r.error == NumberFormatException(md[MIN_SHOW_DAYS])
  {
    if MIN_SHOW_DAYS !in md then Success(None)
    else
      match ParseInt(md[MIN_SHOW_DAYS])
      case Some(n) => Success(Some(n))
      case None => Failure(NumberFormatException(md[MIN_SHOW_DAYS]))
  }

  /** The values read after `minShowDays`. */
  function ManifestRest(c: ConfigValue, md: MetaData, isAbsolute: string -> bool): (c': ConfigValue)
    ensures c'.(onGVL := c.onGVL, policyUrl := c.policyUrl, vendors := c.vendors, version := c.version) == c
    ensures RestRead(c', md, isAbsolute)
  {
    c.(onGVL := GetBoolean(md, "CNVR_CMP_On_GVL"),
       policyUrl := GetUri(md, isAbsolute, "CNVR_CMP_Policy_URL"),
       vendors := GetIntList(md, "CNVR_CMP_Vendors"),
       version := GetMetaData(md, "CNVR_CMP_Config_Version"))
  }

  /** The record and outcome of one `getConfigFromManifest` call. */
  datatype Read = Read(config: ConfigValue, outcome: Outcome<CmpError>)

  /** From `minShowDays` on: a text that is not an `Int` throws, and nothing after it is assigned. */
  function ManifestTail(prefix: ConfigValue, md: MetaData, isAbsolute: string -> bool): (r: Read)
    ensures r.outcome.Fail? <==> MinShowDays(md).Failure?
    ensures r.outcome.Fail? ==> r == Read(prefix, Fail(NumberFormatException(md[MIN_SHOW_DAYS])))
    ensures r.outcome.Pass? ==> r.config.(minShowDays := prefix.minShowDays, onGVL := prefix.onGVL,
                                          policyUrl := prefix.policyUrl, vendors := prefix.vendors,
                                          version := prefix.version) == prefix
    ensures r.outcome.Pass? ==> r.config.minShowDays == MinShowDays(md).value && RestRead(r.config, md, isAbsolute)
  {
    match MinShowDays(md)
    case Failure(e) => Read(prefix, Fail(e))
    case Success(n) => Read(ManifestRest(prefix.(minShowDays := n), md, isAbsolute), Pass)
  }

  /**
   * `getConfigFromManifest`: a `minShowDays` that is not an `Int` throws, leaving
   * every assignment before it done and every one after it undone.
   */
  function ReadManifest(c: ConfigValue, md: MetaData, isAbsolute: string -> bool): (r: Read)
    ensures r.config.bannerLayout == c.bannerLayout && r.config.id == c.id
    ensures r.config.isServiceSpecific == c.isServiceSpecific && r.config.inApp == c.inApp
    ensures r.config.text.review.tabs.purposes.tabTitle == c.text.review.tabs.purposes.tabTitle
    ensures r.outcome.Fail? <==> MinShowDays(md).Failure?
    ensures r.outcome.Fail? ==> r.outcome.error == NumberFormatException(md[MIN_SHOW_DAYS])
    ensures r.outcome.Fail? ==> r.config.onGVL == c.onGVL && r.config.policyUrl == c.policyUrl
                                && r.config.vendors == c.vendors && r.config.version == c.version
                                && r.config.minShowDays == c.minShowDays
    ensures PrefixRead(r.config, c.text.review, md, isAbsolute)
    ensures r.outcome.Pass? ==> r.config.minShowDays == MinShowDays(md).value && RestRead(r.config, md, isAbsolute)
  {
    ManifestTail(ManifestPrefix(c, md, isAbsolute), md, isAbsolute)
  }

  // ---------------------------------------------------------------------------
  // The reader itself

  method GetConfigFromManifest(config: CmpConfig, md: MetaData, isAbsolute: string -> bool)
    returns (outcome: Outcome<CmpError>)
    modifies config
    ensures Read(config.Value(), outcome) == ReadManifest(old(config.Value()), md, isAbsolute)
  {
    ghost var c0 := config.Value();
    ReadGvlFromManifest(config, md, isAbsolute);
    ReadCustomUIFromManifest(config, md);
    ReadLegalBasesFromManifest(config, md);
    ReadTextFromManifest(config, md, isAbsolute);
    ReadFirstTierFromManifest(config, md, isAbsolute);
    assert config.Value() == ManifestPrefix(c0, md, isAbsolute);
    outcome := ReadTailFromManifest(config, md, isAbsolute);
  }

  /** From `minShowDays` on. */
  method ReadTailFromManifest(config: CmpConfig, md: MetaData, isAbsolute: string -> bool)
    returns (outcome: Outcome<CmpError>)
    modifies config
    ensures Read(config.Value(), outcome) == ManifestTail(old(config.Value()), md, isAbsolute)
  {
    var minShowDays := MinShowDays(md);
    if minShowDays.Failure? {
      return Fail(minShowDays.error);
    }
    config.minShowDays := minShowDays.value;
    ReadRestFromManifest(config, md, isAbsolute);
    outcome := Pass;
  }

  /** The four assignments after `minShowDays`. */
  method ReadRestFromManifest(config: CmpConfig, md: MetaData, isAbsolute: string -> bool)
    modifies config
    ensures config.Value() == ManifestRest(old(config.Value()), md, isAbsolute)
  {
    config.onGVL := GetBoolean(md, "CNVR_CMP_On_GVL");
    config.policyUrl := GetUri(md, isAbsolute, "CNVR_CMP_Policy_URL");
    config.vendors := GetIntList(md, "CNVR_CMP_Vendors");
    config.version := GetMetaData(md, "CNVR_CMP_Config_Version");
  }

  method ReadGvlFromManifest(config: CmpConfig, md: MetaData, isAbsolute: string -> bool)
    modifies config
    ensures config.Value() == old(config.Value()).(gvl := ManifestGvl(md, isAbsolute))
  {
    config.gvl := config.gvl.(latest := GetUri(md, isAbsolute, "CNVR_CMP_GVL_Latest"));
    config.gvl := config.gvl.(versioned := GetUri(md, isAbsolute, "CNVR_CMP_GVL_Versioned"));
    config.gvl := config.gvl.(baseUrl := GetUri(md, isAbsolute, "CNVR_CMP_GVL_Base_URL"));
  }

  method ReadCustomUIFromManifest(config: CmpConfig, md: MetaData)
    modifies config
    ensures config.Value() == old(config.Value()).(customUI := ManifestCustomUI(md))
  {
    config.customUI := config.customUI.(backgroundColor := GetMetaData(md, "CNVR_CMP_Custom_UI_Background_Color"));
    config.customUI := config.customUI.(borderRadiusButton := GetMetaData(md, "CNVR_CMP_Custom_UI_Border_Radius_Button"));
    config.customUI := config.customUI.(linkColor := GetMetaData(md, "CNVR_CMP_Custom_UI_Link_Color"));
    config.customUI := config.customUI.(primaryColor := GetMetaData(md, "CNVR_CMP_Custom_UI_Primary_Color"));
    config.customUI := config.customUI.(textColor := GetMetaData(md, "CNVR_CMP_Custom_UI_Text_Color"));
  }

  method ReadLegalBasesFromManifest(config: CmpConfig, md: MetaData)
    modifies config
    ensures config.Value() == old(config.Value()).(legalBases := ManifestLegalBases(md))
  {
    config.legalBases := config.legalBases.(feature := GetIntList(md, "CNVR_CMP_Legal_Bases_Features"));
    config.legalBases := config.legalBases.(purposeConsent := GetIntList(md, "CNVR_CMP_Legal_Bases_Purpose_Consent"));
    config.legalBases := config.legalBases.(purposeLegitimateInterest := GetIntList(md, "CNVR_CMP_Legal_Bases_Purpose_Legitimate_Interest"));
    config.legalBases := config.legalBases.(specialFeature := GetIntList(md, "CNVR_CMP_Legal_Bases_Special_Feature"));
    config.legalBases := config.legalBases.(specialPurpose := GetIntList(md, "CNVR_CMP_Legal_Bases_Special_Purpose"));
  }

  method ReadTextFromManifest(config: CmpConfig, md: MetaData, isAbsolute: string -> bool)
    modifies config
    ensures config.Value() == old(config.Value()).(text := Text(ManifestLanding(md), ManifestReview(old(config.text.review), md, isAbsolute)))
  {
    var l := config.text.landing;
    l := l.(body := l.body.(p1 := GetMetaData(md, "CNVR_CMP_Text_Landing_Body_P1")));
    l := l.(body := l.body.(p2 := GetMetaData(md, "CNVR_CMP_Text_Landing_Body_P2")));
    l := l.(cta := GetMetaData(md, "CNVR_CMP_Text_Landing_CTA"));
    l := l.(reviewLink := GetMetaData(md, "CNVR_CMP_Text_Landing_Review_Link"));
    l := l.(seeMoreLink := l.seeMoreLink.(seeMore := GetMetaData(md, "CNVR_CMP_Text_Landing_See_More")));
    l := l.(seeMoreLink := l.seeMoreLink.(seeLess := GetMetaData(md, "CNVR_CMP_Text_Landing_See_Less")));
    l := l.(title := GetMetaData(md, "CNVR_CMP_Text_Landing_Title"));
    config.text := config.text.(landing := l);

    var companies := ManifestCompanies(md, isAbsolute);
    var purposes := ManifestPurposes(config.text.review.tabs.purposes, md);
    var r := config.text.review;
    r := r.(tabs := Tabs(companies, purposes));
    r := r.(buttons := Buttons(GetMetaData(md, "CNVR_CMP_Text_Review_Buttons_Allow"),
                               GetMetaData(md, "CNVR_CMP_Text_Review_Buttons_Deny"),
                               GetMetaData(md, "CNVR_CMP_Text_Review_Buttons_Opt_Out")));
    r := r.(footer := Footer(allowAll := GetMetaData(md, "CNVR_CMP_Text_Review_Footer_Allow_All"),
                             cta := GetMetaData(md, "CNVR_CMP_Text_Review_Footer_CTA"),
                             denyAll := GetMetaData(md, "CNVR_CMP_Text_Review_Footer_Deny_All")));
    r := r.(introBody := GetMetaData(md, "CNVR_CMP_Text_Review_Intro_Body"));
    config.text := config.text.(review := r);
  }

  method ReadFirstTierFromManifest(config: CmpConfig, md: MetaData, isAbsolute: string -> bool)
    modifies config
    ensures config.Value() == ManifestFirstTier(old(config.Value()), md, isAbsolute)
  {
    config.brandingImg := GetUri(md, isAbsolute, "CNVR_CMP_Branding_Img");
    config.countryCode := GetMetaData(md, "CNVR_CMP_Country_Code");
    config.cssOverride := GetUri(md, isAbsolute, "CNVR_CMP_CSS_Override");
    config.gdprAppliesGlobally := GetBoolean(md, "CNVR_CMP_GDPR_Applies_Globally");
    config.language := GetMetaData(md, "CNVR_CMP_Lang");
    config.legalName := GetMetaData(md, "CNVR_CMP_Legal_Name");
  }

  // ---------------------------------------------------------------------------
  // Properties of the reader

  /**
   * Every URI-typed field the manifest fills holds an absolute URI or is null, and
   * every key whose text is an absolute URI has that text kept.
   */
  lemma UrisAreAbsolute(c: ConfigValue, md: MetaData, isAbsolute: string -> bool)
    ensures var r := ReadManifest(c, md, isAbsolute).config;
      && (r.gvl.latest.Some? ==> isAbsolute(r.gvl.latest.value))
      && (r.gvl.versioned.Some? ==> isAbsolute(r.gvl.versioned.value))
      && (r.gvl.baseUrl.Some? ==> isAbsolute(r.gvl.baseUrl.value))
      && (r.text.review.tabs.companies.privacyPolicyLink.Some? ==> isAbsolute(r.text.review.tabs.companies.privacyPolicyLink.value))
      && (r.brandingImg.Some? ==> isAbsolute(r.brandingImg.value))
      && (r.cssOverride.Some? ==> isAbsolute(r.cssOverride.value))
      && (ReadManifest(c, md, isAbsolute).outcome.Pass? && r.policyUrl.Some? ==> isAbsolute(r.policyUrl.value))
    ensures var r := ReadManifest(c, md, isAbsolute).config;
      && (isAbsolute(MetaDataText(md, "CNVR_CMP_GVL_Latest")) ==> r.gvl.latest == Some(MetaDataText(md, "CNVR_CMP_GVL_Latest")))
      && (isAbsolute(MetaDataText(md, "CNVR_CMP_GVL_Versioned")) ==> r.gvl.versioned == Some(MetaDataText(md, "CNVR_CMP_GVL_Versioned")))
      && (isAbsolute(MetaDataText(md, "CNVR_CMP_GVL_Base_URL")) ==> r.gvl.baseUrl == Some(MetaDataText(md, "CNVR_CMP_GVL_Base_URL")))
      && (isAbsolute(MetaDataText(md, "CNVR_CMP_Text_Review_Tabs_Companies_Privacy_Policy_Link")) ==>
            r.text.review.tabs.companies.privacyPolicyLink == Some(MetaDataText(md, "CNVR_CMP_Text_Review_Tabs_Companies_Privacy_Policy_Link")))
      && (isAbsolute(MetaDataText(md, "CNVR_CMP_Branding_Img")) ==> r.brandingImg == Some(MetaDataText(md, "CNVR_CMP_Branding_Img")))
      && (isAbsolute(MetaDataText(md, "CNVR_CMP_CSS_Override")) ==> r.cssOverride == Some(MetaDataText(md, "CNVR_CMP_CSS_Override")))
      && (ReadManifest(c, md, isAbsolute).outcome.Pass? && isAbsolute(MetaDataText(md, "CNVR_CMP_Policy_URL")) ==>
            r.policyUrl == Some(MetaDataText(md, "CNVR_CMP_Policy_URL")))
  {
    var p := ManifestPrefix(c, md, isAbsolute);
    var r := ReadManifest(c, md, isAbsolute);
    assert r == ManifestTail(p, md, isAbsolute);
    assert r.config.gvl == p.gvl == ManifestGvl(md, isAbsolute);
    assert r.config.text.review.tabs.companies == p.text.review.tabs.companies == ManifestCompanies(md, isAbsolute);
    assert r.config.brandingImg == p.brandingImg == GetUri(md, isAbsolute, "CNVR_CMP_Branding_Img");
    assert r.config.cssOverride == p.cssOverride == GetUri(md, isAbsolute, "CNVR_CMP_CSS_Override");
    if r.outcome.Pass? {
      assert r.config.policyUrl == GetUri(md, isAbsolute, "CNVR_CMP_Policy_URL");
    }
  }

  /** When "null" is not an absolute URI, an absent URI key gives null. */
  lemma MissingUriIsNull(md: MetaData, isAbsolute: string -> bool, key: string)
    requires !isAbsolute("null") && key !in md
    ensures GetUri(md, isAbsolute, key) == None
  {
  }

  const COMPANIES_SPECIAL_FEATURE := "CNVR_CMP_Text_Review_Tabs_Companies_Header_Special_Feature"
  const COMPANIES_SPECIAL_PURPOSE := "CNVR_CMP_Text_Review_Tabs_Companies_Header_Special_Purpose"

  /**
   * The Companies header reads the special-feature and special-purpose keys
   * crosswise: each key fills the other column.
   */
  lemma CompaniesHeaderCrossed(md: MetaData, isAbsolute: string -> bool)
    ensures ManifestCompanies(md, isAbsolute).header.specialPurpose == GetMetaData(md, COMPANIES_SPECIAL_FEATURE)
    ensures ManifestCompanies(md, isAbsolute).header.specialFeature == GetMetaData(md, COMPANIES_SPECIAL_PURPOSE)
  {
  }

  /** A manifest giving only the Companies special-feature header fills the special-purpose column alone. */
  lemma CrossedHeaderExample(isAbsolute: string -> bool, s: string)
    ensures ManifestCompanies(map[COMPANIES_SPECIAL_FEATURE := s], isAbsolute).header.specialPurpose == Some(s)
    ensures ManifestCompanies(map[COMPANIES_SPECIAL_FEATURE := s], isAbsolute).header.specialFeature == None
  {
    var md := map[COMPANIES_SPECIAL_FEATURE := s];
    CompaniesHeaderCrossed(md, isAbsolute);
    assert COMPANIES_SPECIAL_PURPOSE[51] != COMPANIES_SPECIAL_FEATURE[51];
  }

  /** A manifest with none of the reader's keys nulls the plain text fields and the lists. */
  lemma EmptyManifestIsNull(c: ConfigValue, isAbsolute: string -> bool)
    ensures var r := ReadManifest(c, map[], isAbsolute);
      && r.outcome == Pass
      && r.config.customUI == NO_CUSTOM_UI && r.config.legalBases == NO_LEGAL_BASES
      && r.config.text.landing == NO_LANDING
      && r.config.countryCode == None && r.config.version == None && r.config.language == None
      && r.config.gdprAppliesGlobally == None && r.config.onGVL == None && r.config.minShowDays == None
      && r.config.vendors == None
  {
  }

  /** A `minShowDays` that is not an `Int` stops the reader before `onGVL`, `policyUrl`, `vendors` and `version`. */
  lemma BadMinShowDaysStops(c: ConfigValue, isAbsolute: string -> bool)
    ensures var md := map[MIN_SHOW_DAYS := "7 days", "CNVR_CMP_Config_Version" := "2"];
      var r := ReadManifest(c, md, isAbsolute);
      && r.outcome == Fail(NumberFormatException("7 days"))
      && r.config.version == c.version
  {
    var md := map[MIN_SHOW_DAYS := "7 days", "CNVR_CMP_Config_Version" := "2"];
    assert !IsDigit(md[MIN_SHOW_DAYS][1]);
  }

  /** A list with a bad token, or a space after a comma, is dropped whole. */
  lemma SpacedVendorListIsNull(c: ConfigValue, isAbsolute: string -> bool)
    ensures ReadManifest(c, map["CNVR_CMP_Vendors" := "[1, 2]"], isAbsolute).config.vendors == None
  {
    SpaceAfterCommaIsNull();
  }

  /** `preventBack` holds exactly when the key is present and reads "true" in any letter case. */
  lemma PreventBackOnlyWhenTrue(md: MetaData)
    ensures PreventBack(md) <==> PREVENT_KEY_BACK in md && ToBoolean(md[PREVENT_KEY_BACK])
  {
    if PREVENT_KEY_BACK !in md {
      var t := MetaDataText(md, PREVENT_KEY_BACK);
      assert t == "null";
      assert Lower(t[0]) != "true"[0];
    }
  }
}
