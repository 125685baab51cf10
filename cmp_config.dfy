/**
 * The configuration record (`CmpConfigObject.CmpConfig`) and its serializer
 * (`getConfigString`), which first refreshes the in-app fields from the
 * preferences store and the advertising id.
 */
module CmpConfigObject {
  import opened Wrappers
  import opened Numerals
  import opened JsonTree
  import opened SharedPreferences

  /** A nullable `String?` field. */
  type Field = Option<string>

  /** A nullable `JSONArray?` field. */
  type IdList = Option<seq<Json>>

  // One datatype per nested Kotlin `object` of CmpConfig.

  datatype Gvl = Gvl(baseUrl: Field, latest: Field, versioned: Field)

  datatype CustomUI = CustomUI(backgroundColor: Field, borderRadiusButton: Field, linkColor: Field,
                               primaryColor: Field, textColor: Field)

  datatype InApp = InApp(deviceId: Field, storedVersion: Field, tcString: Field)

  datatype LegalBases = LegalBases(feature: IdList, purposeConsent: IdList, purposeLegitimateInterest: IdList,
                                   specialFeature: IdList, specialPurpose: IdList)

  datatype LandingBody = LandingBody(p1: Field, p2: Field)

  datatype SeeMoreLink = SeeMoreLink(seeMore: Field, seeLess: Field)

  datatype Landing = Landing(body: LandingBody, cta: Field, reviewLink: Field, seeMoreLink: SeeMoreLink, title: Field)

  /** The column headers; Companies and Purposes have the same five. */
  datatype Header = Header(consent: Field, feature: Field, legInt: Field, specialFeature: Field, specialPurpose: Field)

  datatype Companies = Companies(header: Header, privacyPolicyLink: Field, tabTitle: Field)

  datatype Label = Label(feature: Field, purpose: Field, specialFeature: Field, specialPurpose: Field)

  datatype LegalDescription = LegalDescription(hide: Field, show: Field)

  datatype CompanyList = CompanyList(hide: Field, no: Field, show: Field)

  datatype Purposes = Purposes(header: Header, labels: Label, legalDescription: LegalDescription,
                               companyList: CompanyList, tabTitle: Field)

  datatype Tabs = Tabs(companies: Companies, purposes: Purposes)

  datatype Buttons = Buttons(allow: Field, deny: Field, optOut: Field)

  datatype Footer = Footer(allowAll: Field, cta: Field, denyAll: Field)

  datatype Review = Review(tabs: Tabs, buttons: Buttons, footer: Footer, introBody: Field)

  datatype Text = Text(landing: Landing, review: Review)

  /** The whole record at one instant. */
  datatype ConfigValue = ConfigValue(
    bannerLayout: bool,
    brandingImg: Field,
    countryCode: Field,
    cssOverride: Field,
    gdprAppliesGlobally: Option<bool>,
    id: Option<Int32>,
    isServiceSpecific: Option<bool>,
    language: Field,
    legalName: Field,
    minShowDays: Option<Int32>,
    onGVL: Option<bool>,
    policyUrl: Field,
    vendors: IdList,
    version: Field,
    gvl: Gvl,
    customUI: CustomUI,
    inApp: InApp,
    legalBases: LegalBases,
    text: Text)

  /** Preference keys read back into `InApp`. */
  const PREF_TC_STRING := "IABTCF_TCString"
  const PREF_CONFIG_VERSION := "CNVR_PublisherConfigVersion"

  /** The id the advertising-id lookup substitutes when it catches an `IOException` or a `CnvrCmpException`. */
  const FALLBACK_DEVICE_ID := "00000000-0000-0000-0000-000000000000"

  /**
   * The advertising-id lookup: the fetched id, or the fallback when the lookup ended in one of the two
   * caught exceptions, `IOException` or `CnvrCmpException` (`None` here). Any other exception propagates
   * out of `getConfigString` and is not modelled.
   */
  function AdvertisingId(fetched: Option<string>): (id: string)
    ensures fetched.None? ==> id == FALLBACK_DEVICE_ID
    ensures fetched.Some? ==> id == fetched.value
  {
    fetched.GetOr(FALLBACK_DEVICE_ID)
  }

  // ---------------------------------------------------------------------------
  // The record's `id`: `System.currentTimeMillis().toInt().absoluteValue`

  /** The id as written: `Int.MIN_VALUE.absoluteValue` is still negative. */
  function IdAsWritten(millis: int): Int32 {
    AbsoluteValue(Wrap32(millis))
  }

  /** 2024-07-04: the clock's low 32 bits are `Int.MIN_VALUE`, and the id is negative. */
  lemma IdAsWrittenCanBeNegative()
    ensures IdAsWritten(1_720_134_402_048) == INT_MIN
  {
    assert 1_720_134_402_048 % 0x1_0000_0000 == 0x8000_0000;
  }

  /** The id evidently intended: non-negative, and equal to the as-written id wherever that is. */
  function ConfigId(millis: int): (id: Int32)
    ensures id >= 0
    ensures IdAsWritten(millis) >= 0 ==> id == IdAsWritten(millis)
  {
    var t := Wrap32(millis);
    if t == INT_MIN then 0 else AbsoluteValue(t)
  }

  // ---------------------------------------------------------------------------
  // Initial values

  // The all-null value of each nested record.
  const NO_GVL := Gvl(None, None, None)
  const NO_CUSTOM_UI := CustomUI(None, None, None, None, None)
  const NO_IN_APP := InApp(None, None, None)
  const NO_LEGAL_BASES := LegalBases(None, None, None, None, None)
  const NO_BODY := LandingBody(None, None)
  const NO_SEE_MORE := SeeMoreLink(None, None)
  const NO_LANDING := Landing(NO_BODY, None, None, NO_SEE_MORE, None)
  const NO_HEADER := Header(None, None, None, None, None)
  const NO_COMPANIES := Companies(NO_HEADER, None, None)
  const NO_LABEL := Label(None, None, None, None)
  const NO_LEGAL_DESCRIPTION := LegalDescription(None, None)
  const NO_COMPANY_LIST := CompanyList(None, None, None)
  const NO_PURPOSES := Purposes(NO_HEADER, NO_LABEL, NO_LEGAL_DESCRIPTION, NO_COMPANY_LIST, None)
  const NO_TABS := Tabs(NO_COMPANIES, NO_PURPOSES)
  const NO_BUTTONS := Buttons(None, None, None)
  const NO_FOOTER := Footer(None, None, None)
  const NO_REVIEW := Review(NO_TABS, NO_BUTTONS, NO_FOOTER, None)
  const NO_TEXT := Text(NO_LANDING, NO_REVIEW)

  /** `CmpConfig` as the process first loads it. */
  function Initial(id: Int32): (c: ConfigValue)
    ensures MobileFlags(c)
    ensures c.inApp == InApp(None, Some(""), Some(""))
    ensures c.id == Some(id)
    ensures c.brandingImg == c.countryCode == c.cssOverride == c.language == c.legalName == c.policyUrl == c.version == None
    ensures c.gdprAppliesGlobally.None? && c.minShowDays.None? && c.onGVL.None? && c.vendors.None?
    ensures c.gvl == NO_GVL && c.customUI == NO_CUSTOM_UI && c.legalBases == NO_LEGAL_BASES && c.text == NO_TEXT
  {
    ConfigValue(
      bannerLayout := true, brandingImg := None, countryCode := None, cssOverride := None,
      gdprAppliesGlobally := None, id := Some(id), isServiceSpecific := Some(true),
      language := None, legalName := None, minShowDays := None, onGVL := None,
      policyUrl := None, vendors := None, version := None,
      gvl := NO_GVL,
      customUI := NO_CUSTOM_UI,
      inApp := InApp(None, Some(""), Some("")),
      legalBases := NO_LEGAL_BASES,
      text := NO_TEXT)
  }

  /** The two flags the mobile context fixes: no box shadow, always service specific. */
  predicate MobileFlags(c: ConfigValue) {
    c.bannerLayout && c.isServiceSpecific == Some(true)
  }

  // ---------------------------------------------------------------------------
  // The runtime source

  /** `applySharedPreferencesToConfig`: stored TC string and config version, "" when absent. */
  function WithPreferences(c: ConfigValue, prefs: Entries): (c': ConfigValue)
    requires HoldsNoInt(prefs, PREF_TC_STRING) && HoldsNoInt(prefs, PREF_CONFIG_VERSION)
  {
    c.(inApp := c.inApp.(tcString := Some(GetString(prefs, PREF_TC_STRING, "")),
                         storedVersion := Some(GetString(prefs, PREF_CONFIG_VERSION, ""))))
  }

  /** `applyDeviceId`. */
  function WithDeviceId(c: ConfigValue, deviceId: string): ConfigValue {
    c.(inApp := c.inApp.(deviceId := Some(deviceId)))
  }

  /** What `getConfigString` does to the record before rendering it. */
  function WithRuntime(c: ConfigValue, prefs: Entries, deviceId: string): (c': ConfigValue)
    requires HoldsNoInt(prefs, PREF_TC_STRING) && HoldsNoInt(prefs, PREF_CONFIG_VERSION)
    ensures c'.(inApp := c.inApp) == c
    ensures c'.inApp.deviceId == Some(deviceId)
    ensures PREF_TC_STRING in prefs ==> c'.inApp.tcString == Some(prefs[PREF_TC_STRING].s)
    ensures PREF_TC_STRING !in prefs ==> c'.inApp.tcString == Some("")
    ensures PREF_CONFIG_VERSION in prefs ==> c'.inApp.storedVersion == Some(prefs[PREF_CONFIG_VERSION].s)
    ensures PREF_CONFIG_VERSION !in prefs ==> c'.inApp.storedVersion == Some("")
  {
    WithDeviceId(WithPreferences(c, prefs), deviceId)
  }

  // ---------------------------------------------------------------------------
  // The serializer

  function Str(v: Field): Option<Json> {
    if v.Some? then Some(JStr(v.value)) else None
  }

  function Bool(v: Option<bool>): Option<Json> {
    if v.Some? then Some(JBool(v.value)) else None
  }

  function Int(v: Option<Int32>): Option<Json> {
    if v.Some? then Some(JInt(v.value)) else None
  }

  function Arr(v: IdList): Option<Json> {
    if v.Some? then Some(JArr(v.value)) else None
  }

  /** What a parent holds under a child's key: the child, unless it is empty. */
  function AsChild(child: JsonObject): Option<Json> {
    if child != map[] then Some(JObj(child)) else None
  }

  function GvlPuts(g: Gvl): Puts {
    []
    + [("latest", Str(g.latest))]
    + [("versioned", Str(g.versioned))]
    + [("baseUrl", Str(g.baseUrl))]
  }

  function GvlJson(g: Gvl): JsonObject {
    Fill(GvlPuts(g))
  }

  function CustomUIPuts(u: CustomUI): Puts {
    []
    + [("backgroundColor", Str(u.backgroundColor))]
    + [("borderRadiusButton", Str(u.borderRadiusButton))]
    + [("linkColor", Str(u.linkColor))]
    + [("primaryColor", Str(u.primaryColor))]
    + [("textColor", Str(u.textColor))]
  }

  function CustomUIJson(u: CustomUI): JsonObject {
    Fill(CustomUIPuts(u))
  }

  function InAppPuts(a: InApp): Puts {
    []
    + [("deviceId", Str(a.deviceId))]
    + [("storedVersion", Str(a.storedVersion))]
    + [("tcstring", Str(a.tcString))]
  }

  function InAppJson(a: InApp): JsonObject {
    Fill(InAppPuts(a))
  }

  /** The two purpose bases, nested under `legalBases.purpose`. */
  function LegalBasesPurposePuts(b: LegalBases): Puts {
    []
    + [("consent", Arr(b.purposeConsent))]
    + [("legitimateInterest", Arr(b.purposeLegitimateInterest))]
  }

  function LegalBasesPurposeJson(b: LegalBases): JsonObject {
    Fill(LegalBasesPurposePuts(b))
  }

  function LegalBasesPuts(b: LegalBases, purpose: JsonObject): Puts {
    []
    + [("feature", Arr(b.feature))]
    + [("specialFeature", Arr(b.specialFeature))]
    + [("specialPurpose", Arr(b.specialPurpose))]
    + [("purpose", AsChild(purpose))]
  }

  function LegalBasesJson(b: LegalBases): JsonObject {
    Fill(LegalBasesPuts(b, LegalBasesPurposeJson(b)))
  }

  function LandingBodyPuts(b: LandingBody): Puts {
    []
    + [("p1", Str(b.p1))]
    + [("p2", Str(b.p2))]
  }

  function LandingBodyJson(b: LandingBody): JsonObject {
    Fill(LandingBodyPuts(b))
  }

  function SeeMorePuts(s: SeeMoreLink): Puts {
    []
    + [("seeMore", Str(s.seeMore))]
    + [("seeLess", Str(s.seeLess))]
  }

  function SeeMoreJson(s: SeeMoreLink): JsonObject {
    Fill(SeeMorePuts(s))
  }

  function LandingPuts(l: Landing, body: JsonObject, seeMore: JsonObject): Puts {
    []
    + [("cta", Str(l.cta))]
    + [("reviewLink", Str(l.reviewLink))]
    + [("title", Str(l.title))]
    + [("body", AsChild(body))]
    + [("seeMoreLink", AsChild(seeMore))]
  }

  function LandingJson(l: Landing): JsonObject {
    Fill(LandingPuts(l, LandingBodyJson(l.body), SeeMoreJson(l.seeMoreLink)))
  }

  function HeaderPuts(h: Header): Puts {
    []
    + [("consent", Str(h.consent))]
    + [("feature", Str(h.feature))]
    + [("legInt", Str(h.legInt))]
    + [("specialFeature", Str(h.specialFeature))]
    + [("specialPurpose", Str(h.specialPurpose))]
  }

  function HeaderJson(h: Header): JsonObject {
    Fill(HeaderPuts(h))
  }

  function CompaniesPuts(c: Companies, header: JsonObject): Puts {
    []
    + [("privacyPolicyLink", Str(c.privacyPolicyLink))]
    + [("tabTitle", Str(c.tabTitle))]
    + [("header", AsChild(header))]
  }

  function CompaniesJson(c: Companies): JsonObject {
    Fill(CompaniesPuts(c, HeaderJson(c.header)))
  }

  function LabelPuts(l: Label): Puts {
    []
    + [("feature", Str(l.feature))]
    + [("purpose", Str(l.purpose))]
    + [("specialFeature", Str(l.specialFeature))]
    + [("specialPurpose", Str(l.specialPurpose))]
  }

  function LabelJson(l: Label): JsonObject {
    Fill(LabelPuts(l))
  }

  function LegalDescriptionPuts(d: LegalDescription): Puts {
    []
    + [("hide", Str(d.hide))]
    + [("show", Str(d.show))]
  }

  function LegalDescriptionJson(d: LegalDescription): JsonObject {
    Fill(LegalDescriptionPuts(d))
  }

  function CompanyListPuts(l: CompanyList): Puts {
    []
    + [("hide", Str(l.hide))]
    + [("show", Str(l.show))]
    + [("no", Str(l.no))]
  }

  function CompanyListJson(l: CompanyList): JsonObject {
    Fill(CompanyListPuts(l))
  }

  function PurposesPuts(p: Purposes, companyList: JsonObject, header: JsonObject, labels: JsonObject,
                       legalDescription: JsonObject): Puts {
    []
    + [("tabTitle", Str(p.tabTitle))]
    + [("companyList", AsChild(companyList))]
    + [("header", AsChild(header))]
    + [("label", AsChild(labels))]
    + [("legalDescription", AsChild(legalDescription))]
  }

  function PurposesJson(p: Purposes): JsonObject {
    Fill(PurposesPuts(p, CompanyListJson(p.companyList), HeaderJson(p.header), LabelJson(p.labels),
                      LegalDescriptionJson(p.legalDescription)))
  }

  function TabsPuts(companies: JsonObject, purposes: JsonObject): Puts {
    []
    + [("companies", AsChild(companies))]
    + [("purposes", AsChild(purposes))]
  }

  function TabsJson(t: Tabs): JsonObject {
    Fill(TabsPuts(CompaniesJson(t.companies), PurposesJson(t.purposes)))
  }

  function ButtonsPuts(b: Buttons): Puts {
    []
    + [("allow", Str(b.allow))]
    + [("deny", Str(b.deny))]
    + [("optOut", Str(b.optOut))]
  }

  function ButtonsJson(b: Buttons): JsonObject {
    Fill(ButtonsPuts(b))
  }

  function FooterPuts(f: Footer): Puts {
    []
    + [("allowAll", Str(f.allowAll))]
    + [("denyAll", Str(f.denyAll))]
    + [("cta", Str(f.cta))]
  }

  function FooterJson(f: Footer): JsonObject {
    Fill(FooterPuts(f))
  }

  function ReviewPuts(r: Review, tabs: JsonObject, buttons: JsonObject, footer: JsonObject): Puts {
    []
    + [("introBody", Str(r.introBody))]
    + [("tabs", AsChild(tabs))]
    + [("buttons", AsChild(buttons))]
    + [("footer", AsChild(footer))]
  }

  function ReviewJson(r: Review): JsonObject {
    Fill(ReviewPuts(r, TabsJson(r.tabs), ButtonsJson(r.buttons), FooterJson(r.footer)))
  }

  function TextPuts(landing: JsonObject, review: JsonObject): Puts {
    []
    + [("landing", AsChild(landing))]
    + [("review", AsChild(review))]
  }

  function TextJson(t: Text): JsonObject {
    Fill(TextPuts(LandingJson(t.landing), ReviewJson(t.review)))
  }

  /** The puts making up the document `getConfigString` returns for the record `c` (after the runtime refresh). */
  function ConfigPuts(c: ConfigValue, gvl: JsonObject, customUI: JsonObject, inApp: JsonObject,
                      legalBases: JsonObject, text: JsonObject): Puts {
    [("GVL", AsChild(gvl)),
     ("customUI", AsChild(customUI)),
     ("inAppConfig", AsChild(inApp)),
     ("legalBases", AsChild(legalBases)),
     ("text", AsChild(text)),
     ("bannerLayout", Some(JBool(c.bannerLayout))),
     ("brandingImg", Str(c.brandingImg)),
     ("countryCode", Str(c.countryCode)),
     ("cssOverride", Str(c.cssOverride)),
     ("gdprAppliesGlobally", Bool(c.gdprAppliesGlobally)),
     ("id", Int(c.id)),
     ("isServiceSpecific", Bool(c.isServiceSpecific)),
     ("lang", Str(c.language)),
     ("legalName", Str(c.legalName)),
     ("minShowDays", Int(c.minShowDays)),
     ("onGVL", Bool(c.onGVL)),
     ("policyUrl", Str(c.policyUrl)),
     ("vendors", Arr(c.vendors)),
     ("version", Str(c.version))]
  }

  function Render(c: ConfigValue): JsonObject {
    Fill(ConfigPuts(c, GvlJson(c.gvl), CustomUIJson(c.customUI), InAppJson(c.inApp),
                    LegalBasesJson(c.legalBases), TextJson(c.text)))
  }

  // ---------------------------------------------------------------------------
  // The mutable singleton

  class CmpConfig {
    var bannerLayout: bool
    var brandingImg: Field
    var countryCode: Field
    var cssOverride: Field
    var gdprAppliesGlobally: Option<bool>
    var id: Option<Int32>
    var isServiceSpecific: Option<bool>
    var language: Field
    var legalName: Field
    var minShowDays: Option<Int32>
    var onGVL: Option<bool>
    var policyUrl: Field
    var vendors: IdList
    var version: Field
    var gvl: Gvl
    var customUI: CustomUI
    var inApp: InApp
    var legalBases: LegalBases
    var text: Text

    /** The record's current contents. */
    function Value(): ConfigValue
      reads this
    {
      ConfigValue(bannerLayout, brandingImg, countryCode, cssOverride, gdprAppliesGlobally, id,
                  isServiceSpecific, language, legalName, minShowDays, onGVL, policyUrl, vendors,
                  version, gvl, customUI, inApp, legalBases, text)
    }

    /** The singleton's initialisation; `millis` is the clock reading that seeds `id`. */
    constructor (millis: int)
      ensures Value() == Initial(ConfigId(millis))
      ensures id.Some? && id.value >= 0
      ensures IdAsWritten(millis) >= 0 ==> id == Some(IdAsWritten(millis))
    {
      bannerLayout := true;
      brandingImg := None;
      countryCode := None;
      cssOverride := None;
      gdprAppliesGlobally := None;
      id := Some(ConfigId(millis));
      isServiceSpecific := Some(true);
      language := None;
      legalName := None;
      minShowDays := None;
      onGVL := None;
      policyUrl := None;
      vendors := None;
      version := None;
      gvl := NO_GVL;
      customUI := NO_CUSTOM_UI;
      inApp := InApp(None, Some(""), Some(""));
      legalBases := NO_LEGAL_BASES;
      text := NO_TEXT;
    }

    /** `applySharedPreferencesToConfig`. */
    method ApplySharedPreferences(prefs: Preferences)
      requires HoldsNoInt(prefs.entries, PREF_TC_STRING) && HoldsNoInt(prefs.entries, PREF_CONFIG_VERSION)
      modifies this
      ensures Value() == WithPreferences(old(Value()), prefs.entries)
    {
      inApp := inApp.(tcString := Some(GetString(prefs.entries, PREF_TC_STRING, "")));
      inApp := inApp.(storedVersion := Some(GetString(prefs.entries, PREF_CONFIG_VERSION, "")));
    }

    /** `applyDeviceId`, with the advertising id already fetched. */
    method ApplyDeviceId(deviceId: string)
      modifies this
      ensures Value() == WithDeviceId(old(Value()), deviceId)
    {
      inApp := inApp.(deviceId := Some(deviceId));
    }

    /**
     * `getConfigString`: refresh the in-app fields, then fill one JSON object per
     * nested record, attaching each to its parent only when it is not empty.
     */
    method GetConfigString(prefs: Preferences, deviceId: string) returns (json: Json)
      requires HoldsNoInt(prefs.entries, PREF_TC_STRING) && HoldsNoInt(prefs.entries, PREF_CONFIG_VERSION)
      modifies this
      ensures Value() == WithRuntime(old(Value()), prefs.entries, deviceId)
      ensures json == JObj(Render(Value()))
    {
      ApplySharedPreferences(prefs);
      ApplyDeviceId(deviceId);

      var configJson := BuildConfigJson(Value());
      json := JObj(configJson);
    }
  }

  // The section builders `getConfigString` runs in sequence, one per nested record.

  /**
   * `value?.let { json.put(key, it) }`: an absent value leaves the object as it was.
   * `puts` records, for the proof, the calls made on this object so far.
   */
  method PutField(m: JsonObject, ghost puts: Puts, key: string, v: Option<Json>)
    returns (m': JsonObject, ghost puts': Puts)
    requires m == Fill(puts)
    ensures puts' == puts + [(key, v)]
    ensures m' == Fill(puts')
  {
    m' := m;
    if v.Some? { m' := m'[key := v.value]; }
    puts' := puts + [(key, v)];
    assert puts'[..|puts'| - 1] == puts;
  }

  /** `if (child.length() > 0) json.put(key, child)`: an empty child is not attached. */
  method PutChild(m: JsonObject, ghost puts: Puts, key: string, child: JsonObject)
    returns (m': JsonObject, ghost puts': Puts)
    requires m == Fill(puts)
    ensures puts' == puts + [(key, AsChild(child))]
    ensures m' == Fill(puts')
  {
    m' := m;
    if child != map[] { m' := m'[key := JObj(child)]; }
    puts' := puts + [(key, AsChild(child))];
    assert puts'[..|puts'| - 1] == puts;
  }

  method BuildGvlJson(g: Gvl) returns (m: JsonObject)
    ensures m == GvlJson(g)
  {
    m := map[];
    ghost var fields: Puts := [];
    m, fields := PutField(m, fields, "latest", Str(g.latest));
    m, fields := PutField(m, fields, "versioned", Str(g.versioned));
    m, fields := PutField(m, fields, "baseUrl", Str(g.baseUrl));
    assert fields == GvlPuts(g);
  }

  method BuildCustomUIJson(u: CustomUI) returns (m: JsonObject)
    ensures m == CustomUIJson(u)
  {
    m := map[];
    ghost var fields: Puts := [];
    m, fields := PutField(m, fields, "backgroundColor", Str(u.backgroundColor));
    m, fields := PutField(m, fields, "borderRadiusButton", Str(u.borderRadiusButton));
    m, fields := PutField(m, fields, "linkColor", Str(u.linkColor));
    m, fields := PutField(m, fields, "primaryColor", Str(u.primaryColor));
    m, fields := PutField(m, fields, "textColor", Str(u.textColor));
    assert fields == CustomUIPuts(u);
  }

  method BuildInAppJson(a: InApp) returns (m: JsonObject)
    ensures m == InAppJson(a)
  {
    m := map[];
    ghost var fields: Puts := [];
    m, fields := PutField(m, fields, "deviceId", Str(a.deviceId));
    m, fields := PutField(m, fields, "storedVersion", Str(a.storedVersion));
    m, fields := PutField(m, fields, "tcstring", Str(a.tcString));
    assert fields == InAppPuts(a);
  }

  method BuildLegalBasesJson(b: LegalBases) returns (m: JsonObject)
    ensures m == LegalBasesJson(b)
  {
    m := map[];
    ghost var fields: Puts := [];
    var purpose: JsonObject := map[];
    ghost var fpurpose: Puts := [];
    m, fields := PutField(m, fields, "feature", Arr(b.feature));
    purpose, fpurpose := PutField(purpose, fpurpose, "consent", Arr(b.purposeConsent));
    purpose, fpurpose := PutField(purpose, fpurpose, "legitimateInterest", Arr(b.purposeLegitimateInterest));
    m, fields := PutField(m, fields, "specialFeature", Arr(b.specialFeature));
    m, fields := PutField(m, fields, "specialPurpose", Arr(b.specialPurpose));
    assert fpurpose == LegalBasesPurposePuts(b);
    m, fields := PutChild(m, fields, "purpose", purpose);
    assert fields == LegalBasesPuts(b, purpose);
  }

  method BuildLandingJson(l: Landing) returns (m: JsonObject)
    ensures m == LandingJson(l)
  {
    m := map[];
    ghost var fields: Puts := [];
    var body: JsonObject := map[];
    ghost var fbody: Puts := [];
    var seeMore: JsonObject := map[];
    ghost var fseeMore: Puts := [];
    body, fbody := PutField(body, fbody, "p1", Str(l.body.p1));
    body, fbody := PutField(body, fbody, "p2", Str(l.body.p2));
    m, fields := PutField(m, fields, "cta", Str(l.cta));
    m, fields := PutField(m, fields, "reviewLink", Str(l.reviewLink));
    seeMore, fseeMore := PutField(seeMore, fseeMore, "seeMore", Str(l.seeMoreLink.seeMore));
    seeMore, fseeMore := PutField(seeMore, fseeMore, "seeLess", Str(l.seeMoreLink.seeLess));
    m, fields := PutField(m, fields, "title", Str(l.title));
    assert fbody == LandingBodyPuts(l.body);
    assert fseeMore == SeeMorePuts(l.seeMoreLink);
    m, fields := PutChild(m, fields, "body", body);
    m, fields := PutChild(m, fields, "seeMoreLink", seeMore);
    assert fields == LandingPuts(l, body, seeMore);
  }

  method BuildHeaderJson(h: Header) returns (m: JsonObject)
    ensures m == HeaderJson(h)
  {
    m := map[];
    ghost var fields: Puts := [];
    m, fields := PutField(m, fields, "consent", Str(h.consent));
    m, fields := PutField(m, fields, "feature", Str(h.feature));
    m, fields := PutField(m, fields, "legInt", Str(h.legInt));
    m, fields := PutField(m, fields, "specialFeature", Str(h.specialFeature));
    m, fields := PutField(m, fields, "specialPurpose", Str(h.specialPurpose));
    assert fields == HeaderPuts(h);
  }

  method BuildCompaniesJson(c: Companies) returns (m: JsonObject)
    ensures m == CompaniesJson(c)
  {
    m := map[];
    ghost var fields: Puts := [];
    var header := BuildHeaderJson(c.header);
    m, fields := PutField(m, fields, "privacyPolicyLink", Str(c.privacyPolicyLink));
    m, fields := PutField(m, fields, "tabTitle", Str(c.tabTitle));
    m, fields := PutChild(m, fields, "header", header);
    assert fields == CompaniesPuts(c, header);
  }

  method BuildLabelJson(l: Label) returns (m: JsonObject)
    ensures m == LabelJson(l)
  {
    m := map[];
    ghost var fields: Puts := [];
    m, fields := PutField(m, fields, "feature", Str(l.feature));
    m, fields := PutField(m, fields, "purpose", Str(l.purpose));
    m, fields := PutField(m, fields, "specialFeature", Str(l.specialFeature));
    m, fields := PutField(m, fields, "specialPurpose", Str(l.specialPurpose));
    assert fields == LabelPuts(l);
  }

  method BuildLegalDescriptionJson(d: LegalDescription) returns (m: JsonObject)
    ensures m == LegalDescriptionJson(d)
  {
    m := map[];
    ghost var fields: Puts := [];
    m, fields := PutField(m, fields, "hide", Str(d.hide));
    m, fields := PutField(m, fields, "show", Str(d.show));
    assert fields == LegalDescriptionPuts(d);
  }

  method BuildCompanyListJson(l: CompanyList) returns (m: JsonObject)
    ensures m == CompanyListJson(l)
  {
    m := map[];
    ghost var fields: Puts := [];
    m, fields := PutField(m, fields, "hide", Str(l.hide));
    m, fields := PutField(m, fields, "show", Str(l.show));
    m, fields := PutField(m, fields, "no", Str(l.no));
    assert fields == CompanyListPuts(l);
  }

  method BuildPurposesJson(p: Purposes) returns (m: JsonObject)
    ensures m == PurposesJson(p)
  {
    m := map[];
    ghost var fields: Puts := [];
    m, fields := PutField(m, fields, "tabTitle", Str(p.tabTitle));
    var companyList := BuildCompanyListJson(p.companyList);
    var header := BuildHeaderJson(p.header);
    var labels := BuildLabelJson(p.labels);
    var legalDescription := BuildLegalDescriptionJson(p.legalDescription);
    m, fields := PutChild(m, fields, "companyList", companyList);
    m, fields := PutChild(m, fields, "header", header);
    m, fields := PutChild(m, fields, "label", labels);
    m, fields := PutChild(m, fields, "legalDescription", legalDescription);
    assert fields == PurposesPuts(p, companyList, header, labels, legalDescription);
  }

  method BuildTabsJson(t: Tabs) returns (m: JsonObject)
    ensures m == TabsJson(t)
  {
    m := map[];
    ghost var fields: Puts := [];
    var companies := BuildCompaniesJson(t.companies);
    var purposes := BuildPurposesJson(t.purposes);
    m, fields := PutChild(m, fields, "companies", companies);
    m, fields := PutChild(m, fields, "purposes", purposes);
    assert fields == TabsPuts(companies, purposes);
  }

  method BuildButtonsJson(b: Buttons) returns (m: JsonObject)
    ensures m == ButtonsJson(b)
  {
    m := map[];
    ghost var fields: Puts := [];
    m, fields := PutField(m, fields, "allow", Str(b.allow));
    m, fields := PutField(m, fields, "deny", Str(b.deny));
    m, fields := PutField(m, fields, "optOut", Str(b.optOut));
    assert fields == ButtonsPuts(b);
  }

  method BuildFooterJson(f: Footer) returns (m: JsonObject)
    ensures m == FooterJson(f)
  {
    m := map[];
    ghost var fields: Puts := [];
    m, fields := PutField(m, fields, "allowAll", Str(f.allowAll));
    m, fields := PutField(m, fields, "denyAll", Str(f.denyAll));
    m, fields := PutField(m, fields, "cta", Str(f.cta));
    assert fields == FooterPuts(f);
  }

  method BuildReviewJson(r: Review) returns (m: JsonObject)
    ensures m == ReviewJson(r)
  {
    m := map[];
    ghost var fields: Puts := [];
    m, fields := PutField(m, fields, "introBody", Str(r.introBody));
    var tabs := BuildTabsJson(r.tabs);
    var buttons := BuildButtonsJson(r.buttons);
    var footer := BuildFooterJson(r.footer);
    m, fields := PutChild(m, fields, "tabs", tabs);
    m, fields := PutChild(m, fields, "buttons", buttons);
    m, fields := PutChild(m, fields, "footer", footer);
    assert fields == ReviewPuts(r, tabs, buttons, footer);
  }

  method BuildTextJson(t: Text) returns (m: JsonObject)
    ensures m == TextJson(t)
  {
    m := map[];
    ghost var fields: Puts := [];
    var landing := BuildLandingJson(t.landing);
    var review := BuildReviewJson(t.review);
    m, fields := PutChild(m, fields, "landing", landing);
    m, fields := PutChild(m, fields, "review", review);
    assert fields == TextPuts(landing, review);
  }

  /** The whole document for the record `c`: the five sections, then the top-level values. */
  method BuildConfigJson(c: ConfigValue) returns (m: JsonObject)
    ensures m == Render(c)
  {
    var gvlJson := BuildGvlJson(c.gvl);
    var customUIJson := BuildCustomUIJson(c.customUI);
    var inAppJson := BuildInAppJson(c.inApp);
    var legalBasesJson := BuildLegalBasesJson(c.legalBases);
    var textJson := BuildTextJson(c.text);
    m := AssembleConfigJson(c, gvlJson, customUIJson, inAppJson, legalBasesJson, textJson);
  }

  /** The puts on the root object, given the rendered sections. */
  method AssembleConfigJson(c: ConfigValue, gvl: JsonObject, customUI: JsonObject, inApp: JsonObject,
                            legalBases: JsonObject, text: JsonObject)
    returns (m: JsonObject)
    ensures m == Fill(ConfigPuts(c, gvl, customUI, inApp, legalBases, text))
  {
    ghost var target := ConfigPuts(c, gvl, customUI, inApp, legalBases, text);
    ghost var fields: Puts;
    ConfigPutsLayout(c, gvl, customUI, inApp, legalBases, text);
    m, fields := PutSections(target, gvl, customUI, inApp, legalBases, text);
    m, fields := PutTopLevelValues(c, target, m, fields);
    assert target[..19] == target;
  }

  /** Where each put sits in `ConfigPuts`: the five sections first, then the top-level values in order. */
  lemma ConfigPutsLayout(c: ConfigValue, gvl: JsonObject, customUI: JsonObject, inApp: JsonObject,
                         legalBases: JsonObject, text: JsonObject)
    ensures var target := ConfigPuts(c, gvl, customUI, inApp, legalBases, text);
      && |target| == 19
      && target[..5] == [("GVL", AsChild(gvl)), ("customUI", AsChild(customUI)), ("inAppConfig", AsChild(inApp)),
                         ("legalBases", AsChild(legalBases)), ("text", AsChild(text))]
      && target[5] == ("bannerLayout", Some(JBool(c.bannerLayout)))
      && target[6] == ("brandingImg", Str(c.brandingImg))
      && target[7] == ("countryCode", Str(c.countryCode))
      && target[8] == ("cssOverride", Str(c.cssOverride))
      && target[9] == ("gdprAppliesGlobally", Bool(c.gdprAppliesGlobally))
      && target[10] == ("id", Int(c.id))
      && target[11] == ("isServiceSpecific", Bool(c.isServiceSpecific))
      && target[12] == ("lang", Str(c.language))
      && target[13] == ("legalName", Str(c.legalName))
      && target[14] == ("minShowDays", Int(c.minShowDays))
      && target[15] == ("onGVL", Bool(c.onGVL))
      && target[16] == ("policyUrl", Str(c.policyUrl))
      && target[17] == ("vendors", Arr(c.vendors))
      && target[18] == ("version", Str(c.version))
  {
  }

  /** The five sections, each attached only when it is not empty. */
  method PutSections(ghost target: Puts, gvl: JsonObject, customUI: JsonObject, inApp: JsonObject,
                     legalBases: JsonObject, text: JsonObject)
    returns (m: JsonObject, ghost fields: Puts)
    requires |target| == 19
    requires target[..5] == [("GVL", AsChild(gvl)), ("customUI", AsChild(customUI)), ("inAppConfig", AsChild(inApp)),
                             ("legalBases", AsChild(legalBases)), ("text", AsChild(text))]
    ensures fields == target[..5] && m == Fill(fields)
  {
    m := map[];
    fields := [];
    m, fields := PutChild(m, fields, "GVL", gvl);
    PrefixStep(target, 0);
    assert fields == target[..1];
    m, fields := PutChild(m, fields, "customUI", customUI);
    PrefixStep(target, 1);
    assert fields == target[..2];
    m, fields := PutChild(m, fields, "inAppConfig", inApp);
    PrefixStep(target, 2);
    assert fields == target[..3];
    m, fields := PutChild(m, fields, "legalBases", legalBases);
    PrefixStep(target, 3);
    assert fields == target[..4];
    m, fields := PutChild(m, fields, "text", text);
    PrefixStep(target, 4);
    assert fields == target[..5];
  }

  /** The top-level values: `bannerLayout` always, every other one when it is not null. */
  method PutTopLevelValues(c: ConfigValue, ghost target: Puts, m0: JsonObject, ghost fields0: Puts)
    returns (m: JsonObject, ghost fields: Puts)
    requires |target| == 19
    requires target[5] == ("bannerLayout", Some(JBool(c.bannerLayout)))
    requires target[6] == ("brandingImg", Str(c.brandingImg))
    requires target[7] == ("countryCode", Str(c.countryCode))
    requires target[8] == ("cssOverride", Str(c.cssOverride))
    requires target[9] == ("gdprAppliesGlobally", Bool(c.gdprAppliesGlobally))
    requires target[10] == ("id", Int(c.id))
    requires target[11] == ("isServiceSpecific", Bool(c.isServiceSpecific))
    requires target[12] == ("lang", Str(c.language))
    requires target[13] == ("legalName", Str(c.legalName))
    requires target[14] == ("minShowDays", Int(c.minShowDays))
    requires target[15] == ("onGVL", Bool(c.onGVL))
    requires target[16] == ("policyUrl", Str(c.policyUrl))
    requires target[17] == ("vendors", Arr(c.vendors))
    requires target[18] == ("version", Str(c.version))
    requires fields0 == target[..5] && m0 == Fill(fields0)
    ensures fields == target[..19] && m == Fill(fields)
  {
    m, fields := m0, fields0;
    m, fields := PutField(m, fields, "bannerLayout", Some(JBool(c.bannerLayout)));
    PrefixStep(target, 5);
    assert fields == target[..6];
    m, fields := PutField(m, fields, "brandingImg", Str(c.brandingImg));
    PrefixStep(target, 6);
    assert fields == target[..7];
    m, fields := PutField(m, fields, "countryCode", Str(c.countryCode));
    PrefixStep(target, 7);
    assert fields == target[..8];
    m, fields := PutField(m, fields, "cssOverride", Str(c.cssOverride));
    PrefixStep(target, 8);
    assert fields == target[..9];
    m, fields := PutField(m, fields, "gdprAppliesGlobally", Bool(c.gdprAppliesGlobally));
    PrefixStep(target, 9);
    assert fields == target[..10];
    m, fields := PutField(m, fields, "id", Int(c.id));
    PrefixStep(target, 10);
    assert fields == target[..11];
    m, fields := PutField(m, fields, "isServiceSpecific", Bool(c.isServiceSpecific));
    PrefixStep(target, 11);
    assert fields == target[..12];
    m, fields := PutField(m, fields, "lang", Str(c.language));
    PrefixStep(target, 12);
    assert fields == target[..13];
    m, fields := PutField(m, fields, "legalName", Str(c.legalName));
    PrefixStep(target, 13);
    assert fields == target[..14];
    m, fields := PutField(m, fields, "minShowDays", Int(c.minShowDays));
    PrefixStep(target, 14);
    assert fields == target[..15];
    m, fields := PutField(m, fields, "onGVL", Bool(c.onGVL));
    PrefixStep(target, 15);
    assert fields == target[..16];
    m, fields := PutField(m, fields, "policyUrl", Str(c.policyUrl));
    PrefixStep(target, 16);
    assert fields == target[..17];
    m, fields := PutField(m, fields, "vendors", Arr(c.vendors));
    PrefixStep(target, 17);
    assert fields == target[..18];
    m, fields := PutField(m, fields, "version", Str(c.version));
    PrefixStep(target, 18);
    assert fields == target[..19];
  }

}
