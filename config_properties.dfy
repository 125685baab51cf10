/**
 * What the serializer promises about the document it produces: every non-null
 * field sits under its external key, an object appears exactly when something
 * beneath it is non-null, and the dropping of empty objects cascades upward.
 */
module ConfigProperties {
  import opened Wrappers
  import opened JsonTree
  import opened SharedPreferences
  import opened CmpConfigObject

  // ---------------------------------------------------------------------------
  // One object at a time: the keys each section writes, given its rendered
  // children, and when it writes nothing.

  lemma GvlKeys(g: Gvl)
    ensures Lookup(GvlJson(g), "latest") == Str(g.latest)
    ensures Lookup(GvlJson(g), "versioned") == Str(g.versioned)
    ensures Lookup(GvlJson(g), "baseUrl") == Str(g.baseUrl)
    ensures GvlJson(g) == map[] <==> g == NO_GVL
  {
    var ps := [("latest", Str(g.latest)),
               ("versioned", Str(g.versioned)),
               ("baseUrl", Str(g.baseUrl))];
    assert GvlPuts(g) == ps;
    assert DistinctKeys(ps);
    FillKey(ps, 0);
    FillKey(ps, 1);
    FillKey(ps, 2);
    FillEmpty(ps);
  }

  lemma CustomUIKeys(u: CustomUI)
    ensures Lookup(CustomUIJson(u), "backgroundColor") == Str(u.backgroundColor)
    ensures Lookup(CustomUIJson(u), "borderRadiusButton") == Str(u.borderRadiusButton)
    ensures Lookup(CustomUIJson(u), "linkColor") == Str(u.linkColor)
    ensures Lookup(CustomUIJson(u), "primaryColor") == Str(u.primaryColor)
    ensures Lookup(CustomUIJson(u), "textColor") == Str(u.textColor)
    ensures CustomUIJson(u) == map[] <==> u == NO_CUSTOM_UI
  {
    var ps := [("backgroundColor", Str(u.backgroundColor)),
               ("borderRadiusButton", Str(u.borderRadiusButton)),
               ("linkColor", Str(u.linkColor)),
               ("primaryColor", Str(u.primaryColor)),
               ("textColor", Str(u.textColor))];
    assert CustomUIPuts(u) == ps;
    assert DistinctKeys(ps);
    FillKey(ps, 0);
    FillKey(ps, 1);
    FillKey(ps, 2);
    FillKey(ps, 3);
    FillKey(ps, 4);
    FillEmpty(ps);
  }

  lemma InAppKeys(a: InApp)
    ensures Lookup(InAppJson(a), "deviceId") == Str(a.deviceId)
    ensures Lookup(InAppJson(a), "storedVersion") == Str(a.storedVersion)
    ensures Lookup(InAppJson(a), "tcstring") == Str(a.tcString)
    ensures InAppJson(a) == map[] <==> a == NO_IN_APP
  {
    var ps := [("deviceId", Str(a.deviceId)),
               ("storedVersion", Str(a.storedVersion)),
               ("tcstring", Str(a.tcString))];
    assert InAppPuts(a) == ps;
    assert DistinctKeys(ps);
    FillKey(ps, 0);
    FillKey(ps, 1);
    FillKey(ps, 2);
    FillEmpty(ps);
  }

  lemma LegalBasesPurposeKeys(b: LegalBases)
    ensures Lookup(LegalBasesPurposeJson(b), "consent") == Arr(b.purposeConsent)
    ensures Lookup(LegalBasesPurposeJson(b), "legitimateInterest") == Arr(b.purposeLegitimateInterest)
    ensures LegalBasesPurposeJson(b) == map[] <==> b.purposeConsent.None? && b.purposeLegitimateInterest.None?
  {
    var ps := [("consent", Arr(b.purposeConsent)),
               ("legitimateInterest", Arr(b.purposeLegitimateInterest))];
    assert LegalBasesPurposePuts(b) == ps;
    assert DistinctKeys(ps);
    FillKey(ps, 0);
    FillKey(ps, 1);
    FillEmpty(ps);
  }

  lemma LegalBasesKeys(b: LegalBases, purpose: JsonObject)
    ensures Lookup(Fill(LegalBasesPuts(b, purpose)), "feature") == Arr(b.feature)
    ensures Lookup(Fill(LegalBasesPuts(b, purpose)), "specialFeature") == Arr(b.specialFeature)
    ensures Lookup(Fill(LegalBasesPuts(b, purpose)), "specialPurpose") == Arr(b.specialPurpose)
    ensures Lookup(Fill(LegalBasesPuts(b, purpose)), "purpose") == AsChild(purpose)
    ensures Fill(LegalBasesPuts(b, purpose)) == map[] <==> b.feature.None? && b.specialFeature.None? && b.specialPurpose.None? && purpose == map[]
  {
    var ps := [("feature", Arr(b.feature)),
               ("specialFeature", Arr(b.specialFeature)),
               ("specialPurpose", Arr(b.specialPurpose)),
               ("purpose", AsChild(purpose))];
    assert LegalBasesPuts(b, purpose) == ps;
    assert DistinctKeys(ps);
    FillKey(ps, 0);
    FillKey(ps, 1);
    FillKey(ps, 2);
    FillKey(ps, 3);
    FillEmpty(ps);
  }

  lemma LandingBodyKeys(b: LandingBody)
    ensures Lookup(LandingBodyJson(b), "p1") == Str(b.p1)
    ensures Lookup(LandingBodyJson(b), "p2") == Str(b.p2)
    ensures LandingBodyJson(b) == map[] <==> b == NO_BODY
  {
    var ps := [("p1", Str(b.p1)),
               ("p2", Str(b.p2))];
    assert LandingBodyPuts(b) == ps;
    assert DistinctKeys(ps);
    FillKey(ps, 0);
    FillKey(ps, 1);
    FillEmpty(ps);
  }

  lemma SeeMoreKeys(s: SeeMoreLink)
    ensures Lookup(SeeMoreJson(s), "seeMore") == Str(s.seeMore)
    ensures Lookup(SeeMoreJson(s), "seeLess") == Str(s.seeLess)
    ensures SeeMoreJson(s) == map[] <==> s == NO_SEE_MORE
  {
    var ps := [("seeMore", Str(s.seeMore)),
               ("seeLess", Str(s.seeLess))];
    assert SeeMorePuts(s) == ps;
    assert DistinctKeys(ps);
    FillKey(ps, 0);
    FillKey(ps, 1);
    FillEmpty(ps);
  }

  lemma LandingKeys(l: Landing, body: JsonObject, seeMore: JsonObject)
    ensures Lookup(Fill(LandingPuts(l, body, seeMore)), "cta") == Str(l.cta)
    ensures Lookup(Fill(LandingPuts(l, body, seeMore)), "reviewLink") == Str(l.reviewLink)
    ensures Lookup(Fill(LandingPuts(l, body, seeMore)), "title") == Str(l.title)
    ensures Lookup(Fill(LandingPuts(l, body, seeMore)), "body") == AsChild(body)
    ensures Lookup(Fill(LandingPuts(l, body, seeMore)), "seeMoreLink") == AsChild(seeMore)
    ensures Fill(LandingPuts(l, body, seeMore)) == map[] <==> l.cta.None? && l.reviewLink.None? && l.title.None? && body == map[] && seeMore == map[]
  {
    var ps := [("cta", Str(l.cta)),
               ("reviewLink", Str(l.reviewLink)),
               ("title", Str(l.title)),
               ("body", AsChild(body)),
               ("seeMoreLink", AsChild(seeMore))];
    assert LandingPuts(l, body, seeMore) == ps;
    assert DistinctKeys(ps);
    FillKey(ps, 0);
    FillKey(ps, 1);
    FillKey(ps, 2);
    FillKey(ps, 3);
    FillKey(ps, 4);
    FillEmpty(ps);
  }

  lemma HeaderKeys(h: Header)
    ensures Lookup(HeaderJson(h), "consent") == Str(h.consent)
    ensures Lookup(HeaderJson(h), "feature") == Str(h.feature)
    ensures Lookup(HeaderJson(h), "legInt") == Str(h.legInt)
    ensures Lookup(HeaderJson(h), "specialFeature") == Str(h.specialFeature)
    ensures Lookup(HeaderJson(h), "specialPurpose") == Str(h.specialPurpose)
    ensures HeaderJson(h) == map[] <==> h == NO_HEADER
  {
    var ps := [("consent", Str(h.consent)),
               ("feature", Str(h.feature)),
               ("legInt", Str(h.legInt)),
               ("specialFeature", Str(h.specialFeature)),
               ("specialPurpose", Str(h.specialPurpose))];
    assert HeaderPuts(h) == ps;
    assert DistinctKeys(ps);
    FillKey(ps, 0);
    FillKey(ps, 1);
    FillKey(ps, 2);
    FillKey(ps, 3);
    FillKey(ps, 4);
    FillEmpty(ps);
  }

  lemma CompaniesKeys(c: Companies, header: JsonObject)
    ensures Lookup(Fill(CompaniesPuts(c, header)), "privacyPolicyLink") == Str(c.privacyPolicyLink)
    ensures Lookup(Fill(CompaniesPuts(c, header)), "tabTitle") == Str(c.tabTitle)
    ensures Lookup(Fill(CompaniesPuts(c, header)), "header") == AsChild(header)
    ensures Fill(CompaniesPuts(c, header)) == map[] <==> c.privacyPolicyLink.None? && c.tabTitle.None? && header == map[]
  {
    var ps := [("privacyPolicyLink", Str(c.privacyPolicyLink)),
               ("tabTitle", Str(c.tabTitle)),
               ("header", AsChild(header))];
    assert CompaniesPuts(c, header) == ps;
    assert DistinctKeys(ps);
    FillKey(ps, 0);
    FillKey(ps, 1);
    FillKey(ps, 2);
    FillEmpty(ps);
  }

  lemma LabelKeys(l: Label)
    ensures Lookup(LabelJson(l), "feature") == Str(l.feature)
    ensures Lookup(LabelJson(l), "purpose") == Str(l.purpose)
    ensures Lookup(LabelJson(l), "specialFeature") == Str(l.specialFeature)
    ensures Lookup(LabelJson(l), "specialPurpose") == Str(l.specialPurpose)
    ensures LabelJson(l) == map[] <==> l == NO_LABEL
  {
    var ps := [("feature", Str(l.feature)),
               ("purpose", Str(l.purpose)),
               ("specialFeature", Str(l.specialFeature)),
               ("specialPurpose", Str(l.specialPurpose))];
    assert LabelPuts(l) == ps;
    assert DistinctKeys(ps);
    FillKey(ps, 0);
    FillKey(ps, 1);
    FillKey(ps, 2);
    FillKey(ps, 3);
    FillEmpty(ps);
  }

  lemma LegalDescriptionKeys(d: LegalDescription)
    ensures Lookup(LegalDescriptionJson(d), "hide") == Str(d.hide)
    ensures Lookup(LegalDescriptionJson(d), "show") == Str(d.show)
    ensures LegalDescriptionJson(d) == map[] <==> d == NO_LEGAL_DESCRIPTION
  {
    var ps := [("hide", Str(d.hide)),
               ("show", Str(d.show))];
    assert LegalDescriptionPuts(d) == ps;
    assert DistinctKeys(ps);
    FillKey(ps, 0);
    FillKey(ps, 1);
    FillEmpty(ps);
  }

  lemma CompanyListKeys(l: CompanyList)
    ensures Lookup(CompanyListJson(l), "hide") == Str(l.hide)
    ensures Lookup(CompanyListJson(l), "show") == Str(l.show)
    ensures Lookup(CompanyListJson(l), "no") == Str(l.no)
    ensures CompanyListJson(l) == map[] <==> l == NO_COMPANY_LIST
  {
    var ps := [("hide", Str(l.hide)),
               ("show", Str(l.show)),
               ("no", Str(l.no))];
    assert CompanyListPuts(l) == ps;
    assert DistinctKeys(ps);
    FillKey(ps, 0);
    FillKey(ps, 1);
    FillKey(ps, 2);
    FillEmpty(ps);
  }

  lemma PurposesKeys(p: Purposes, companyList: JsonObject, header: JsonObject, labels: JsonObject,
                       legalDescription: JsonObject)
    ensures Lookup(Fill(PurposesPuts(p, companyList, header, labels, legalDescription)), "tabTitle") == Str(p.tabTitle)
    ensures Lookup(Fill(PurposesPuts(p, companyList, header, labels, legalDescription)), "companyList") == AsChild(companyList)
    ensures Lookup(Fill(PurposesPuts(p, companyList, header, labels, legalDescription)), "header") == AsChild(header)
    ensures Lookup(Fill(PurposesPuts(p, companyList, header, labels, legalDescription)), "label") == AsChild(labels)
    ensures Lookup(Fill(PurposesPuts(p, companyList, header, labels, legalDescription)), "legalDescription") == AsChild(legalDescription)
    ensures Fill(PurposesPuts(p, companyList, header, labels, legalDescription)) == map[] <==> p.tabTitle.None? && companyList == map[] && header == map[] && labels == map[] && legalDescription == map[]
  {
    var ps := [("tabTitle", Str(p.tabTitle)),
               ("companyList", AsChild(companyList)),
               ("header", AsChild(header)),
               ("label", AsChild(labels)),
               ("legalDescription", AsChild(legalDescription))];
    assert PurposesPuts(p, companyList, header, labels, legalDescription) == ps;
    assert DistinctKeys(ps);
    FillKey(ps, 0);
    FillKey(ps, 1);
    FillKey(ps, 2);
    FillKey(ps, 3);
    FillKey(ps, 4);
    FillEmpty(ps);
  }

  lemma TabsKeys(companies: JsonObject, purposes: JsonObject)
    ensures Lookup(Fill(TabsPuts(companies, purposes)), "companies") == AsChild(companies)
    ensures Lookup(Fill(TabsPuts(companies, purposes)), "purposes") == AsChild(purposes)
    ensures Fill(TabsPuts(companies, purposes)) == map[] <==> companies == map[] && purposes == map[]
  {
    var ps := [("companies", AsChild(companies)),
               ("purposes", AsChild(purposes))];
    assert TabsPuts(companies, purposes) == ps;
    assert DistinctKeys(ps);
    FillKey(ps, 0);
    FillKey(ps, 1);
    FillEmpty(ps);
  }

  lemma ButtonsKeys(b: Buttons)
    ensures Lookup(ButtonsJson(b), "allow") == Str(b.allow)
    ensures Lookup(ButtonsJson(b), "deny") == Str(b.deny)
    ensures Lookup(ButtonsJson(b), "optOut") == Str(b.optOut)
    ensures ButtonsJson(b) == map[] <==> b == NO_BUTTONS
  {
    var ps := [("allow", Str(b.allow)),
               ("deny", Str(b.deny)),
               ("optOut", Str(b.optOut))];
    assert ButtonsPuts(b) == ps;
    assert DistinctKeys(ps);
    FillKey(ps, 0);
    FillKey(ps, 1);
    FillKey(ps, 2);
    FillEmpty(ps);
  }

  lemma FooterKeys(f: Footer)
    ensures Lookup(FooterJson(f), "allowAll") == Str(f.allowAll)
    ensures Lookup(FooterJson(f), "denyAll") == Str(f.denyAll)
    ensures Lookup(FooterJson(f), "cta") == Str(f.cta)
    ensures FooterJson(f) == map[] <==> f == NO_FOOTER
  {
    var ps := [("allowAll", Str(f.allowAll)),
               ("denyAll", Str(f.denyAll)),
               ("cta", Str(f.cta))];
    assert FooterPuts(f) == ps;
    assert DistinctKeys(ps);
    FillKey(ps, 0);
    FillKey(ps, 1);
    FillKey(ps, 2);
    FillEmpty(ps);
  }

  lemma ReviewKeys(r: Review, tabs: JsonObject, buttons: JsonObject, footer: JsonObject)
    ensures Lookup(Fill(ReviewPuts(r, tabs, buttons, footer)), "introBody") == Str(r.introBody)
    ensures Lookup(Fill(ReviewPuts(r, tabs, buttons, footer)), "tabs") == AsChild(tabs)
    ensures Lookup(Fill(ReviewPuts(r, tabs, buttons, footer)), "buttons") == AsChild(buttons)
    ensures Lookup(Fill(ReviewPuts(r, tabs, buttons, footer)), "footer") == AsChild(footer)
    ensures Fill(ReviewPuts(r, tabs, buttons, footer)) == map[] <==> r.introBody.None? && tabs == map[] && buttons == map[] && footer == map[]
  {
    var ps := [("introBody", Str(r.introBody)),
               ("tabs", AsChild(tabs)),
               ("buttons", AsChild(buttons)),
               ("footer", AsChild(footer))];
    assert ReviewPuts(r, tabs, buttons, footer) == ps;
    assert DistinctKeys(ps);
    FillKey(ps, 0);
    FillKey(ps, 1);
    FillKey(ps, 2);
    FillKey(ps, 3);
    FillEmpty(ps);
  }

  lemma TextKeys(landing: JsonObject, review: JsonObject)
    ensures Lookup(Fill(TextPuts(landing, review)), "landing") == AsChild(landing)
    ensures Lookup(Fill(TextPuts(landing, review)), "review") == AsChild(review)
    ensures Fill(TextPuts(landing, review)) == map[] <==> landing == map[] && review == map[]
  {
    var ps := [("landing", AsChild(landing)),
               ("review", AsChild(review))];
    assert TextPuts(landing, review) == ps;
    assert DistinctKeys(ps);
    FillKey(ps, 0);
    FillKey(ps, 1);
    FillEmpty(ps);
  }

  /** The keys of the root object, in the order they are put: the sections, then the values. */
  const ROOT_SECTION_KEYS: seq<string> := ["GVL", "customUI", "inAppConfig", "legalBases", "text"]
  const ROOT_FLAG_KEYS: seq<string> :=
    ["bannerLayout", "brandingImg", "countryCode", "cssOverride", "gdprAppliesGlobally", "id", "isServiceSpecific"]
  const ROOT_VALUE_KEYS: seq<string> :=
    ["lang", "legalName", "minShowDays", "onGVL", "policyUrl", "vendors", "version"]
  const ROOT_KEYS: seq<string> :=
    ["GVL", "customUI", "inAppConfig", "legalBases", "text",
     "bannerLayout", "brandingImg", "countryCode", "cssOverride", "gdprAppliesGlobally", "id", "isServiceSpecific",
     "lang", "legalName", "minShowDays", "onGVL", "policyUrl", "vendors", "version"]

  lemma SectionKeysDistinct() ensures DistinctNames(ROOT_SECTION_KEYS) { }
  lemma FlagKeysDistinct() ensures DistinctNames(ROOT_FLAG_KEYS) { }
  lemma ValueKeysDistinct() ensures DistinctNames(ROOT_VALUE_KEYS) { }
  lemma SectionsApartFromFlags() ensures Apart(ROOT_SECTION_KEYS, ROOT_FLAG_KEYS) { }
  lemma SectionsApartFromValues() ensures Apart(ROOT_SECTION_KEYS, ROOT_VALUE_KEYS) { }
  lemma FlagsApartFromValues() ensures Apart(ROOT_FLAG_KEYS, ROOT_VALUE_KEYS) { }

  /** The root object puts no key twice. */
  lemma RootKeysDistinct()
    ensures DistinctNames(ROOT_KEYS)
  {
    SectionKeysDistinct();
    FlagKeysDistinct();
    ValueKeysDistinct();
    SectionsApartFromFlags();
    SectionsApartFromValues();
    FlagsApartFromValues();
    DistinctJoin(ROOT_SECTION_KEYS, ROOT_FLAG_KEYS);
    ApartJoin(ROOT_SECTION_KEYS, ROOT_FLAG_KEYS, ROOT_VALUE_KEYS);
    DistinctJoin(ROOT_SECTION_KEYS + ROOT_FLAG_KEYS, ROOT_VALUE_KEYS);
    assert ROOT_KEYS == ROOT_SECTION_KEYS + ROOT_FLAG_KEYS + ROOT_VALUE_KEYS;
  }

  /** The root object's puts use the keys of `ROOT_KEYS`, in order, so no key twice. */
  lemma ConfigPutsListed(c: ConfigValue, gvl: JsonObject, customUI: JsonObject, inApp: JsonObject,
                     legalBases: JsonObject, text: JsonObject)
    ensures DistinctKeys(ConfigPuts(c, gvl, customUI, inApp, legalBases, text))
  {
    var ps := ConfigPuts(c, gvl, customUI, inApp, legalBases, text);
    var ks := seq(|ps|, i requires 0 <= i < |ps| => ps[i].0);
    assert ks == ROOT_KEYS;
    RootKeysDistinct();
    KeysDistinct(ps, ROOT_KEYS);
  }

  /** Each section sits under its key of the root object, absent when empty. */
  lemma ConfigSectionKeys(c: ConfigValue, gvl: JsonObject, customUI: JsonObject, inApp: JsonObject,
                     legalBases: JsonObject, text: JsonObject)
    ensures Lookup(Fill(ConfigPuts(c, gvl, customUI, inApp, legalBases, text)), "GVL") == AsChild(gvl)
    ensures Lookup(Fill(ConfigPuts(c, gvl, customUI, inApp, legalBases, text)), "customUI") == AsChild(customUI)
    ensures Lookup(Fill(ConfigPuts(c, gvl, customUI, inApp, legalBases, text)), "inAppConfig") == AsChild(inApp)
    ensures Lookup(Fill(ConfigPuts(c, gvl, customUI, inApp, legalBases, text)), "legalBases") == AsChild(legalBases)
    ensures Lookup(Fill(ConfigPuts(c, gvl, customUI, inApp, legalBases, text)), "text") == AsChild(text)
  {
    ConfigPutsListed(c, gvl, customUI, inApp, legalBases, text);
    FillKey(ConfigPuts(c, gvl, customUI, inApp, legalBases, text), 0);
    FillKey(ConfigPuts(c, gvl, customUI, inApp, legalBases, text), 1);
    FillKey(ConfigPuts(c, gvl, customUI, inApp, legalBases, text), 2);
    FillKey(ConfigPuts(c, gvl, customUI, inApp, legalBases, text), 3);
    FillKey(ConfigPuts(c, gvl, customUI, inApp, legalBases, text), 4);
  }

  /** The first top-level values sit under their keys of the root object. */
  lemma ConfigFlagKeys(c: ConfigValue, gvl: JsonObject, customUI: JsonObject, inApp: JsonObject,
                     legalBases: JsonObject, text: JsonObject)
    ensures Lookup(Fill(ConfigPuts(c, gvl, customUI, inApp, legalBases, text)), "bannerLayout") == Some(JBool(c.bannerLayout))
    ensures Lookup(Fill(ConfigPuts(c, gvl, customUI, inApp, legalBases, text)), "brandingImg") == Str(c.brandingImg)
    ensures Lookup(Fill(ConfigPuts(c, gvl, customUI, inApp, legalBases, text)), "countryCode") == Str(c.countryCode)
    ensures Lookup(Fill(ConfigPuts(c, gvl, customUI, inApp, legalBases, text)), "cssOverride") == Str(c.cssOverride)
    ensures Lookup(Fill(ConfigPuts(c, gvl, customUI, inApp, legalBases, text)), "gdprAppliesGlobally") == Bool(c.gdprAppliesGlobally)
    ensures Lookup(Fill(ConfigPuts(c, gvl, customUI, inApp, legalBases, text)), "id") == Int(c.id)
    ensures Lookup(Fill(ConfigPuts(c, gvl, customUI, inApp, legalBases, text)), "isServiceSpecific") == Bool(c.isServiceSpecific)
  {
    ConfigPutsListed(c, gvl, customUI, inApp, legalBases, text);
    FillKey(ConfigPuts(c, gvl, customUI, inApp, legalBases, text), 5);
    FillKey(ConfigPuts(c, gvl, customUI, inApp, legalBases, text), 6);
    FillKey(ConfigPuts(c, gvl, customUI, inApp, legalBases, text), 7);
    FillKey(ConfigPuts(c, gvl, customUI, inApp, legalBases, text), 8);
    FillKey(ConfigPuts(c, gvl, customUI, inApp, legalBases, text), 9);
    FillKey(ConfigPuts(c, gvl, customUI, inApp, legalBases, text), 10);
    FillKey(ConfigPuts(c, gvl, customUI, inApp, legalBases, text), 11);
  }

  /** The remaining top-level values sit under their keys of the root object. */
  lemma ConfigValueKeys(c: ConfigValue, gvl: JsonObject, customUI: JsonObject, inApp: JsonObject,
                     legalBases: JsonObject, text: JsonObject)
    ensures Lookup(Fill(ConfigPuts(c, gvl, customUI, inApp, legalBases, text)), "lang") == Str(c.language)
    ensures Lookup(Fill(ConfigPuts(c, gvl, customUI, inApp, legalBases, text)), "legalName") == Str(c.legalName)
    ensures Lookup(Fill(ConfigPuts(c, gvl, customUI, inApp, legalBases, text)), "minShowDays") == Int(c.minShowDays)
    ensures Lookup(Fill(ConfigPuts(c, gvl, customUI, inApp, legalBases, text)), "onGVL") == Bool(c.onGVL)
    ensures Lookup(Fill(ConfigPuts(c, gvl, customUI, inApp, legalBases, text)), "policyUrl") == Str(c.policyUrl)
    ensures Lookup(Fill(ConfigPuts(c, gvl, customUI, inApp, legalBases, text)), "vendors") == Arr(c.vendors)
    ensures Lookup(Fill(ConfigPuts(c, gvl, customUI, inApp, legalBases, text)), "version") == Str(c.version)
  {
    ConfigPutsListed(c, gvl, customUI, inApp, legalBases, text);
    FillKey(ConfigPuts(c, gvl, customUI, inApp, legalBases, text), 12);
    FillKey(ConfigPuts(c, gvl, customUI, inApp, legalBases, text), 13);
    FillKey(ConfigPuts(c, gvl, customUI, inApp, legalBases, text), 14);
    FillKey(ConfigPuts(c, gvl, customUI, inApp, legalBases, text), 15);
    FillKey(ConfigPuts(c, gvl, customUI, inApp, legalBases, text), 16);
    FillKey(ConfigPuts(c, gvl, customUI, inApp, legalBases, text), 17);
    FillKey(ConfigPuts(c, gvl, customUI, inApp, legalBases, text), 18);
  }

  // ---------------------------------------------------------------------------
  // The cascade: a parent is dropped exactly when every field beneath it is null.

  lemma LegalBasesEmpty(b: LegalBases)
    ensures LegalBasesJson(b) == map[] <==> b == NO_LEGAL_BASES
  {
    LegalBasesKeys(b, LegalBasesPurposeJson(b));
    LegalBasesPurposeKeys(b);
  }

  lemma LandingEmpty(l: Landing)
    ensures LandingJson(l) == map[] <==> l == NO_LANDING
  {
    LandingKeys(l, LandingBodyJson(l.body), SeeMoreJson(l.seeMoreLink));
    LandingBodyKeys(l.body);
    SeeMoreKeys(l.seeMoreLink);
  }

  lemma CompaniesEmpty(c: Companies)
    ensures CompaniesJson(c) == map[] <==> c == NO_COMPANIES
  {
    CompaniesKeys(c, HeaderJson(c.header));
    HeaderKeys(c.header);
  }

  lemma PurposesEmpty(p: Purposes)
    ensures PurposesJson(p) == map[] <==> p == NO_PURPOSES
  {
    PurposesKeys(p, CompanyListJson(p.companyList), HeaderJson(p.header), LabelJson(p.labels), LegalDescriptionJson(p.legalDescription));
    CompanyListKeys(p.companyList);
    HeaderKeys(p.header);
    LabelKeys(p.labels);
    LegalDescriptionKeys(p.legalDescription);
  }

  lemma TabsEmpty(t: Tabs)
    ensures TabsJson(t) == map[] <==> t == NO_TABS
  {
    TabsKeys(CompaniesJson(t.companies), PurposesJson(t.purposes));
    CompaniesEmpty(t.companies);
    PurposesEmpty(t.purposes);
  }

  lemma ReviewEmpty(r: Review)
    ensures ReviewJson(r) == map[] <==> r == NO_REVIEW
  {
    ReviewKeys(r, TabsJson(r.tabs), ButtonsJson(r.buttons), FooterJson(r.footer));
    TabsEmpty(r.tabs);
    ButtonsKeys(r.buttons);
    FooterKeys(r.footer);
  }

  lemma TextEmpty(t: Text)
    ensures TextJson(t) == map[] <==> t == NO_TEXT
  {
    TextKeys(LandingJson(t.landing), ReviewJson(t.review));
    LandingEmpty(t.landing);
    ReviewEmpty(t.review);
  }

  // ---------------------------------------------------------------------------
  // The runtime refresh

  /** Refreshing twice with the same inputs is refreshing once. */
  lemma RuntimeIdempotent(c: ConfigValue, prefs: Entries, deviceId: string)
    requires HoldsNoInt(prefs, PREF_TC_STRING) && HoldsNoInt(prefs, PREF_CONFIG_VERSION)
    ensures WithRuntime(WithRuntime(c, prefs, deviceId), prefs, deviceId) == WithRuntime(c, prefs, deviceId)
  {
  }

  /** The refresh overwrites every in-app field, so what they held before does not matter. */
  lemma RuntimeForgetsInApp(c1: ConfigValue, c2: ConfigValue, prefs: Entries, deviceId: string)
    requires HoldsNoInt(prefs, PREF_TC_STRING) && HoldsNoInt(prefs, PREF_CONFIG_VERSION)
    requires c1.(inApp := c2.inApp) == c2
    ensures WithRuntime(c1, prefs, deviceId) == WithRuntime(c2, prefs, deviceId)
  {
  }

  /** Two `getConfigString` calls in a row, with the same store and advertising id, return the same document. */
  lemma RepeatedRenderAgrees(c: ConfigValue, prefs: Entries, deviceId: string)
    requires HoldsNoInt(prefs, PREF_TC_STRING) && HoldsNoInt(prefs, PREF_CONFIG_VERSION)
    ensures Render(WithRuntime(WithRuntime(c, prefs, deviceId), prefs, deviceId)) == Render(WithRuntime(c, prefs, deviceId))
  {
    RuntimeIdempotent(c, prefs, deviceId);
  }
}
