/**
 * The JSON configuration source (JsonConfigReader.kt): a publisher-supplied
 * JSON document is mapped onto the configuration record, every listed field
 * assigned unconditionally through org.json's null-tolerant `opt*` lookups.
 * Parsing the text is left to org.json: the reader receives the parsed tree,
 * or the message of the JSONException the parser threw.
 */
module JsonConfigReader {
  import opened Wrappers
  import opened Numerals
  import opened JsonTree
  import opened CmpExceptions
  import opened CmpConfigObject
  import opened ConfigProperties

  const INVALID_CONFIG_PREFIX := "JSON config is an invalid CMP config: "

  // ---------------------------------------------------------------------------
  // What the reader assigns, one function per nested object; each takes the
  // object the Kotlin code holds in its local (null when the path is missing).

  function ReadGvl(gvl: Option<JsonObject>): (g: Gvl)
    ensures gvl.None? ==> g == NO_GVL
    ensures gvl.Some? ==> g.baseUrl == Some(OptStringOf(gvl.value, "baseUrl"))
                          && g.latest == Some(OptStringOf(gvl.value, "latestFilename"))
                          && g.versioned == Some(OptStringOf(gvl.value, "versionedFilename"))
  {
    Gvl(baseUrl := OptString(gvl, "baseUrl"),
        latest := OptString(gvl, "latestFilename"),
        versioned := OptString(gvl, "versionedFilename"))
  }

  function ReadCustomUI(ui: Option<JsonObject>): (u: CustomUI)
    ensures ui.None? ==> u == NO_CUSTOM_UI
    ensures ui.Some? ==> u.backgroundColor.Some? && u.borderRadiusButton.Some? && u.linkColor.Some?
                         && u.primaryColor.Some? && u.textColor.Some?
  {
    CustomUI(backgroundColor := OptString(ui, "backgroundColor"),
             borderRadiusButton := OptString(ui, "borderRadiusButton"),
             linkColor := OptString(ui, "linkColor"),
             primaryColor := OptString(ui, "primaryColor"),
             textColor := OptString(ui, "textColor"))
  }

  /** Arrays are not defaulted: a missing or non-array value gives null even under a present parent. */
  function ReadLegalBases(bases: Option<JsonObject>): (b: LegalBases)
    ensures bases.None? ==> b == NO_LEGAL_BASES
    ensures b.feature.Some? <==> bases.Some? && "feature" in bases.value && bases.value["feature"].JArr?
  {
    var purpose := OptObject(bases, "purpose");
    LegalBases(feature := OptArray(bases, "feature"),
               purposeConsent := OptArray(purpose, "consent"),
               purposeLegitimateInterest := OptArray(purpose, "legitimateInterest"),
               specialFeature := OptArray(bases, "specialFeature"),
               specialPurpose := OptArray(bases, "specialPurpose"))
  }

  function ReadLanding(landing: Option<JsonObject>): (l: Landing)
    ensures landing.None? ==> l == NO_LANDING
    ensures landing.Some? ==> l.cta.Some? && l.reviewLink.Some? && l.title.Some?
  {
    var body := OptObject(landing, "body");
    var seeMore := OptObject(landing, "seeMoreLink");
    Landing(body := LandingBody(OptString(body, "p1"), OptString(body, "p2")),
            cta := OptString(landing, "cta"),
            reviewLink := OptString(landing, "reviewLink"),
            seeMoreLink := SeeMoreLink(seeMore := OptString(seeMore, "seeMore"), seeLess := OptString(seeMore, "seeLess")),
            title := OptString(landing, "title"))
  }

  /** Both tabs' headers are read under the same five keys. */
  function ReadHeader(header: Option<JsonObject>): (h: Header)
    ensures header.None? ==> h == NO_HEADER
    ensures header.Some? ==> h.consent.Some? && h.feature.Some? && h.legInt.Some?
                             && h.specialFeature.Some? && h.specialPurpose.Some?
  {
    Header(consent := OptString(header, "consent"),
           feature := OptString(header, "feature"),
           legInt := OptString(header, "legInt"),
           specialFeature := OptString(header, "specialFeature"),
           specialPurpose := OptString(header, "specialPurpose"))
  }

  function ReadCompanies(companies: Option<JsonObject>): (c: Companies)
    ensures companies.None? ==> c == NO_COMPANIES
  {
    Companies(header := ReadHeader(OptObject(companies, "header")),
              privacyPolicyLink := OptString(companies, "privacyPolicyLink"),
              tabTitle := OptString(companies, "tabTitle"))
  }

  function ReadPurposes(purposes: Option<JsonObject>): (p: Purposes)
    ensures purposes.None? ==> p == NO_PURPOSES
  {
    var labels := OptObject(purposes, "label");
    var legalDescription := OptObject(purposes, "legalDescription");
    var companyList := OptObject(purposes, "companyList");
    Purposes(header := ReadHeader(OptObject(purposes, "header")),
             labels := Label(feature := OptString(labels, "feature"),
                             purpose := OptString(labels, "purpose"),
                             specialFeature := OptString(labels, "specialFeature"),
                             specialPurpose := OptString(labels, "specialPurpose")),
             legalDescription := LegalDescription(OptString(legalDescription, "hide"),
                                                  OptString(legalDescription, "show")),
             companyList := CompanyList(OptString(companyList, "hide"),
                                        OptString(companyList, "no"),
                                        OptString(companyList, "show")),
             tabTitle := OptString(purposes, "tabTitle"))
  }

  function ReadTabs(tabs: Option<JsonObject>): (t: Tabs)
    ensures tabs.None? ==> t == NO_TABS
  {
    Tabs(ReadCompanies(OptObject(tabs, "companies")), ReadPurposes(OptObject(tabs, "purposes")))
  }

  function ReadReview(review: Option<JsonObject>): (r: Review)
    ensures review.None? ==> r == NO_REVIEW
  {
    var buttons := OptObject(review, "buttons");
    var footer := OptObject(review, "footer");
    Review(tabs := ReadTabs(OptObject(review, "tabs")),
           buttons := Buttons(allow := OptString(buttons, "allow"),
                              deny := OptString(buttons, "deny"),
                              optOut := OptString(buttons, "optOut")),
           footer := Footer(allowAll := OptString(footer, "allowAll"),
                            cta := OptString(footer, "cta"),
                            denyAll := OptString(footer, "denyAll")),
           introBody := OptString(review, "introBody"))
  }

  function ReadText(text: Option<JsonObject>): (t: Text)
    ensures text.None? ==> t == NO_TEXT
  {
    Text(ReadLanding(OptObject(text, "landing")), ReadReview(OptObject(text, "review")))
  }

  /**
   * The record after `buildConfigFromJSON` read `root`: the GVL override, nine
   * top-level values, customUI, legalBases and the whole text tree are replaced;
   * bannerLayout, id, isServiceSpecific, onGVL, vendors and the in-app fields are not touched.
   */
  /** The nine top-level values, read under the record's own keys except `lang`. */
  function ReadTopLevel(c: ConfigValue, root: JsonObject): (c': ConfigValue)
    ensures c'.(brandingImg := c.brandingImg, countryCode := c.countryCode, cssOverride := c.cssOverride,
                gdprAppliesGlobally := c.gdprAppliesGlobally, language := c.language, legalName := c.legalName,
                minShowDays := c.minShowDays, policyUrl := c.policyUrl, version := c.version) == c
    ensures c'.brandingImg.Some? && c'.countryCode.Some? && c'.cssOverride.Some? && c'.language.Some?
            && c'.legalName.Some? && c'.policyUrl.Some? && c'.version.Some?
    ensures c'.language == Some(OptStringOf(root, "lang"))
    ensures c'.gdprAppliesGlobally == Some(OptBooleanOf(root, "gdprAppliesGlobally"))
    ensures c'.minShowDays == Some(OptIntOf(root, "minShowDays"))
  {
    var r := Some(root);
    c.(brandingImg := OptString(r, "brandingImg"),
       countryCode := OptString(r, "countryCode"),
       cssOverride := OptString(r, "cssOverride"),
       gdprAppliesGlobally := OptBoolean(r, "gdprAppliesGlobally"),
       language := OptString(r, "lang"),
       legalName := OptString(r, "legalName"),
       minShowDays := OptInt(r, "minShowDays"),
       policyUrl := OptString(r, "policyUrl"),
       version := OptString(r, "version"))
  }

  /**
   * The record after `buildConfigFromJSON` read `root`: the GVL override, nine
   * top-level values, customUI, legalBases and the whole text tree are replaced;
   * bannerLayout, id, isServiceSpecific, onGVL, vendors and the in-app fields are not touched.
   */
  function ReadJson(c: ConfigValue, root: JsonObject): (c': ConfigValue)
    ensures c'.bannerLayout == c.bannerLayout && c'.id == c.id && c'.isServiceSpecific == c.isServiceSpecific
    ensures c'.onGVL == c.onGVL && c'.vendors == c.vendors && c'.inApp == c.inApp
    ensures c'.brandingImg.Some? && c'.countryCode.Some? && c'.cssOverride.Some? && c'.language.Some?
            && c'.legalName.Some? && c'.policyUrl.Some? && c'.version.Some?
    ensures c'.gdprAppliesGlobally.Some? && c'.minShowDays.Some?
  {
    var r := Some(root);
    ReadTopLevel(c, root).(gvl := ReadGvl(OptObject(r, "GVL")),
                           customUI := ReadCustomUI(OptObject(r, "customUI")),
                           legalBases := ReadLegalBases(OptObject(r, "legalBases")),
                           text := ReadText(OptObject(r, "text")))
  }

  // ---------------------------------------------------------------------------
  // The reader itself

  /**
   * `buildConfigFromJSON`: `parsed` is org.json's parse of the text, or the
   * message of the JSONException it threw. A parse failure is raised again as a
   * CnvrCmpException before any field is assigned.
   */
  method BuildConfigFromJson(config: CmpConfig, parsed: Result<JsonObject, string>) returns (outcome: Outcome<CmpError>)
    modifies config
    ensures parsed.Failure? ==> outcome == Fail(CnvrCmpException(INVALID_CONFIG_PREFIX + parsed.error))
    ensures parsed.Failure? ==> config.Value() == old(config.Value())
    ensures parsed.Success? ==> outcome == Pass && config.Value() == ReadJson(old(config.Value()), parsed.value)
  {
    if parsed.Failure? {
      return Fail(CnvrCmpException(INVALID_CONFIG_PREFIX + parsed.error));
    }
    var configJsonObject := Some(parsed.value);
    ReadGvlInto(config, OptObject(configJsonObject, "GVL"));
    ReadTopLevelInto(config, parsed.value);
    ReadCustomUIInto(config, OptObject(configJsonObject, "customUI"));
    ReadLegalBasesInto(config, OptObject(configJsonObject, "legalBases"));
    ReadTextInto(config, OptObject(configJsonObject, "text"));
    outcome := Pass;
  }

  /** The GVL part of `buildConfigFromJSON`. */
  method ReadGvlInto(config: CmpConfig, gvlObject: Option<JsonObject>)
    modifies config
    ensures config.Value() == old(config.Value()).(gvl := ReadGvl(gvlObject))
  {
    config.gvl := config.gvl.(baseUrl := OptString(gvlObject, "baseUrl"));
    config.gvl := config.gvl.(versioned := OptString(gvlObject, "versionedFilename"));
    config.gvl := config.gvl.(latest := OptString(gvlObject, "latestFilename"));
  }

  /** The first-tier part of `buildConfigFromJSON`. */
  method ReadTopLevelInto(config: CmpConfig, root: JsonObject)
    modifies config
    ensures config.Value() == ReadTopLevel(old(config.Value()), root)
  {
    var configJsonObject := Some(root);
    config.brandingImg := OptString(configJsonObject, "brandingImg");
    config.countryCode := OptString(configJsonObject, "countryCode");
    config.cssOverride := OptString(configJsonObject, "cssOverride");
    config.gdprAppliesGlobally := OptBoolean(configJsonObject, "gdprAppliesGlobally");
    config.language := OptString(configJsonObject, "lang");
    config.legalName := OptString(configJsonObject, "legalName");
    config.minShowDays := OptInt(configJsonObject, "minShowDays");
    config.policyUrl := OptString(configJsonObject, "policyUrl");
    config.version := OptString(configJsonObject, "version");
  }

  /** The customUI part of `buildConfigFromJSON`. */
  method ReadCustomUIInto(config: CmpConfig, customUIObject: Option<JsonObject>)
    modifies config
    ensures config.Value() == old(config.Value()).(customUI := ReadCustomUI(customUIObject))
  {
    config.customUI := config.customUI.(backgroundColor := OptString(customUIObject, "backgroundColor"));
    config.customUI := config.customUI.(borderRadiusButton := OptString(customUIObject, "borderRadiusButton"));
    config.customUI := config.customUI.(linkColor := OptString(customUIObject, "linkColor"));
    config.customUI := config.customUI.(primaryColor := OptString(customUIObject, "primaryColor"));
    config.customUI := config.customUI.(textColor := OptString(customUIObject, "textColor"));
  }

  /** The legal-bases part of `buildConfigFromJSON`. */
  method ReadLegalBasesInto(config: CmpConfig, legalBasesObject: Option<JsonObject>)
    modifies config
    ensures config.Value() == old(config.Value()).(legalBases := ReadLegalBases(legalBasesObject))
  {
    config.legalBases := config.legalBases.(feature := OptArray(legalBasesObject, "feature"));
    var legalBasesPurposeObject := OptObject(legalBasesObject, "purpose");
    config.legalBases := config.legalBases.(purposeConsent := OptArray(legalBasesPurposeObject, "consent"));
    config.legalBases := config.legalBases.(purposeLegitimateInterest := OptArray(legalBasesPurposeObject, "legitimateInterest"));
    config.legalBases := config.legalBases.(specialFeature := OptArray(legalBasesObject, "specialFeature"));
    config.legalBases := config.legalBases.(specialPurpose := OptArray(legalBasesObject, "specialPurpose"));
  }

  /** The text part of `buildConfigFromJSON`: every text field, leaf object by leaf object. */
  method ReadTextInto(config: CmpConfig, textObject: Option<JsonObject>)
    modifies config
    ensures config.Value() == old(config.Value()).(text := ReadText(textObject))
  {
    var landing := OptObject(textObject, "landing");
    var landingBody := OptObject(landing, "body");
    var landingSeeMore := OptObject(landing, "seeMoreLink");
    var review := OptObject(textObject, "review");
    var tabs := OptObject(review, "tabs");
    var companies := OptObject(tabs, "companies");
    var companiesHeader := OptObject(companies, "header");
    var purposes := OptObject(tabs, "purposes");
    var purposesHeader := OptObject(purposes, "header");
    var purposesLabel := OptObject(purposes, "label");
    var purposesLegalDescription := OptObject(purposes, "legalDescription");
    var purposesCompanyList := OptObject(purposes, "companyList");
    var buttons := OptObject(review, "buttons");
    var footer := OptObject(review, "footer");

    var l := config.text.landing;
    l := l.(body := LandingBody(OptString(landingBody, "p1"), OptString(landingBody, "p2")));
    l := l.(cta := OptString(landing, "cta"));
    l := l.(reviewLink := OptString(landing, "reviewLink"));
    l := l.(seeMoreLink := SeeMoreLink(OptString(landingSeeMore, "seeMore"), OptString(landingSeeMore, "seeLess")));
    l := l.(title := OptString(landing, "title"));
    config.text := config.text.(landing := l);

    var c := config.text.review.tabs.companies;
    c := c.(header := ReadHeader(companiesHeader));
    c := c.(privacyPolicyLink := OptString(companies, "privacyPolicyLink"));
    c := c.(tabTitle := OptString(companies, "tabTitle"));

    var p := config.text.review.tabs.purposes;
    p := p.(header := ReadHeader(purposesHeader));
    p := p.(labels := Label(OptString(purposesLabel, "feature"), OptString(purposesLabel, "purpose"),
                            OptString(purposesLabel, "specialFeature"), OptString(purposesLabel, "specialPurpose")));
    p := p.(legalDescription := LegalDescription(OptString(purposesLegalDescription, "hide"),
                                                 OptString(purposesLegalDescription, "show")));
    p := p.(companyList := CompanyList(OptString(purposesCompanyList, "hide"),
                                       OptString(purposesCompanyList, "no"),
                                       OptString(purposesCompanyList, "show")));
    p := p.(tabTitle := OptString(purposes, "tabTitle"));

    var r := config.text.review;
    r := r.(tabs := Tabs(c, p));
    r := r.(buttons := Buttons(OptString(buttons, "allow"), OptString(buttons, "deny"), OptString(buttons, "optOut")));
    r := r.(footer := Footer(allowAll := OptString(footer, "allowAll"), cta := OptString(footer, "cta"),
                             denyAll := OptString(footer, "denyAll")));
    r := r.(introBody := OptString(review, "introBody"));
    config.text := config.text.(review := r);
  }

  // ---------------------------------------------------------------------------
  // Properties of the reader

  /** Every field the reader assigns is replaced outright: what the record held before leaves no trace. */
  lemma ReadReplacesNotMerges(c1: ConfigValue, c2: ConfigValue, root: JsonObject)
    requires c1.bannerLayout == c2.bannerLayout && c1.id == c2.id && c1.isServiceSpecific == c2.isServiceSpecific
    requires c1.onGVL == c2.onGVL && c1.vendors == c2.vendors && c1.inApp == c2.inApp
    ensures ReadJson(c1, root) == ReadJson(c2, root)
  {
  }

  /** Reading the same document twice is reading it once. */
  lemma ReadIdempotent(c: ConfigValue, root: JsonObject)
    ensures ReadJson(ReadJson(c, root), root) == ReadJson(c, root)
  {
  }

  /** A document without the optional sections nulls every field beneath them. */
  lemma MissingSectionsAreNull(c: ConfigValue, root: JsonObject)
    requires "GVL" !in root && "customUI" !in root && "legalBases" !in root && "text" !in root
    ensures ReadJson(c, root).gvl == NO_GVL && ReadJson(c, root).customUI == NO_CUSTOM_UI
    ensures ReadJson(c, root).legalBases == NO_LEGAL_BASES && ReadJson(c, root).text == NO_TEXT
  {
  }

  // ---------------------------------------------------------------------------
  // Render, then read: what the serializer writes, the reader finds again

  /** A value present in the rendered record is read back unchanged. */
  predicate Kept<T(==)>(read: Option<T>, written: Option<T>) {
    written.Some? ==> read == written
  }

  /** `obj?.optJSONObject(key)` on what the serializer attached under `key`. */
  function Present(child: JsonObject): Option<JsonObject> {
    if child == map[] then None else Some(child)
  }

  lemma ChildRead(parent: JsonObject, key: string, child: JsonObject)
    requires Lookup(parent, key) == AsChild(child)
    ensures OptObject(Some(parent), key) == Present(child)
  {
  }

  lemma FieldRead(obj: Option<JsonObject>, key: string, f: Field)
    requires obj.Some? ==> Lookup(obj.value, key) == Str(f)
    requires obj.None? ==> f.None?
    ensures Kept(OptString(obj, key), f)
  {
  }

  predicate KeptCustomUI(r: CustomUI, u: CustomUI) {
    Kept(r.backgroundColor, u.backgroundColor) && Kept(r.borderRadiusButton, u.borderRadiusButton)
    && Kept(r.linkColor, u.linkColor) && Kept(r.primaryColor, u.primaryColor) && Kept(r.textColor, u.textColor)
  }

  predicate KeptHeader(r: Header, h: Header) {
    Kept(r.consent, h.consent) && Kept(r.feature, h.feature) && Kept(r.legInt, h.legInt)
    && Kept(r.specialFeature, h.specialFeature) && Kept(r.specialPurpose, h.specialPurpose)
  }

  predicate KeptLanding(r: Landing, l: Landing) {
    Kept(r.body.p1, l.body.p1) && Kept(r.body.p2, l.body.p2) && Kept(r.cta, l.cta)
    && Kept(r.reviewLink, l.reviewLink) && Kept(r.seeMoreLink.seeMore, l.seeMoreLink.seeMore)
    && Kept(r.seeMoreLink.seeLess, l.seeMoreLink.seeLess) && Kept(r.title, l.title)
  }

  predicate KeptCompanies(r: Companies, c: Companies) {
    KeptHeader(r.header, c.header) && Kept(r.privacyPolicyLink, c.privacyPolicyLink) && Kept(r.tabTitle, c.tabTitle)
  }

  predicate KeptPurposes(r: Purposes, p: Purposes) {
    KeptHeader(r.header, p.header)
    && Kept(r.labels.feature, p.labels.feature) && Kept(r.labels.purpose, p.labels.purpose)
    && Kept(r.labels.specialFeature, p.labels.specialFeature) && Kept(r.labels.specialPurpose, p.labels.specialPurpose)
    && Kept(r.legalDescription.hide, p.legalDescription.hide) && Kept(r.legalDescription.show, p.legalDescription.show)
    && Kept(r.companyList.hide, p.companyList.hide) && Kept(r.companyList.no, p.companyList.no)
    && Kept(r.companyList.show, p.companyList.show) && Kept(r.tabTitle, p.tabTitle)
  }

  predicate KeptTabs(r: Tabs, t: Tabs) {
    KeptCompanies(r.companies, t.companies) && KeptPurposes(r.purposes, t.purposes)
  }

  predicate KeptReview(r: Review, v: Review) {
    KeptTabs(r.tabs, v.tabs)
    && Kept(r.buttons.allow, v.buttons.allow) && Kept(r.buttons.deny, v.buttons.deny)
    && Kept(r.buttons.optOut, v.buttons.optOut)
    && Kept(r.footer.allowAll, v.footer.allowAll) && Kept(r.footer.cta, v.footer.cta)
    && Kept(r.footer.denyAll, v.footer.denyAll) && Kept(r.introBody, v.introBody)
  }

  lemma HeaderRoundTrip(h: Header)
    ensures KeptHeader(ReadHeader(Present(HeaderJson(h))), h)
    ensures h == NO_HEADER ==> ReadHeader(Present(HeaderJson(h))) == NO_HEADER
  {
    HeaderKeys(h);
  }

  lemma LandingRoundTrip(l: Landing)
    ensures KeptLanding(ReadLanding(Present(LandingJson(l))), l)
    ensures l == NO_LANDING ==> ReadLanding(Present(LandingJson(l))) == NO_LANDING
  {
    var body := LandingBodyJson(l.body);
    var seeMore := SeeMoreJson(l.seeMoreLink);
    LandingKeys(l, body, seeMore);
    LandingBodyKeys(l.body);
    SeeMoreKeys(l.seeMoreLink);
    LandingEmpty(l);
    if LandingJson(l) != map[] {
      ChildRead(LandingJson(l), "body", body);
      ChildRead(LandingJson(l), "seeMoreLink", seeMore);
    }
  }

  lemma CompaniesRoundTrip(c: Companies)
    ensures KeptCompanies(ReadCompanies(Present(CompaniesJson(c))), c)
  {
    var header := HeaderJson(c.header);
    CompaniesKeys(c, header);
    CompaniesEmpty(c);
    HeaderRoundTrip(c.header);
    if CompaniesJson(c) != map[] {
      ChildRead(CompaniesJson(c), "header", header);
    }
  }

  lemma PurposesRoundTrip(p: Purposes)
    ensures KeptPurposes(ReadPurposes(Present(PurposesJson(p))), p)
  {
    var companyList := CompanyListJson(p.companyList);
    var header := HeaderJson(p.header);
    var labels := LabelJson(p.labels);
    var legalDescription := LegalDescriptionJson(p.legalDescription);
    PurposesKeys(p, companyList, header, labels, legalDescription);
    PurposesEmpty(p);
    CompanyListReadBack(p.companyList);
    LabelReadBack(p.labels);
    LegalDescriptionReadBack(p.legalDescription);
    HeaderRoundTrip(p.header);
    if PurposesJson(p) != map[] {
      ChildRead(PurposesJson(p), "companyList", companyList);
      ChildRead(PurposesJson(p), "header", header);
      ChildRead(PurposesJson(p), "label", labels);
      ChildRead(PurposesJson(p), "legalDescription", legalDescription);
    }
  }

  lemma LabelReadBack(l: Label)
    ensures var o := Present(LabelJson(l));
      && Kept(OptString(o, "feature"), l.feature) && Kept(OptString(o, "purpose"), l.purpose)
      && Kept(OptString(o, "specialFeature"), l.specialFeature) && Kept(OptString(o, "specialPurpose"), l.specialPurpose)
  {
    LabelKeys(l);
  }

  lemma LegalDescriptionReadBack(d: LegalDescription)
    ensures var o := Present(LegalDescriptionJson(d));
      Kept(OptString(o, "hide"), d.hide) && Kept(OptString(o, "show"), d.show)
  {
    LegalDescriptionKeys(d);
  }

  lemma CompanyListReadBack(l: CompanyList)
    ensures var o := Present(CompanyListJson(l));
      Kept(OptString(o, "hide"), l.hide) && Kept(OptString(o, "no"), l.no) && Kept(OptString(o, "show"), l.show)
  {
    CompanyListKeys(l);
  }

  lemma ButtonsReadBack(b: Buttons)
    ensures var o := Present(ButtonsJson(b));
      Kept(OptString(o, "allow"), b.allow) && Kept(OptString(o, "deny"), b.deny) && Kept(OptString(o, "optOut"), b.optOut)
  {
    ButtonsKeys(b);
  }

  lemma FooterReadBack(f: Footer)
    ensures var o := Present(FooterJson(f));
      Kept(OptString(o, "allowAll"), f.allowAll) && Kept(OptString(o, "cta"), f.cta) && Kept(OptString(o, "denyAll"), f.denyAll)
  {
    FooterKeys(f);
  }

  lemma TabsRoundTrip(t: Tabs)
    ensures KeptTabs(ReadTabs(Present(TabsJson(t))), t)
  {
    var companies := CompaniesJson(t.companies);
    var purposes := PurposesJson(t.purposes);
    TabsKeys(companies, purposes);
    TabsEmpty(t);
    CompaniesRoundTrip(t.companies);
    PurposesRoundTrip(t.purposes);
    if TabsJson(t) != map[] {
      ChildRead(TabsJson(t), "companies", companies);
      ChildRead(TabsJson(t), "purposes", purposes);
    }
  }

  /** The review's tabs are read from the tabs object the serializer attached. */
  lemma ReviewTabsRead(v: Review)
    ensures ReadReview(Present(ReviewJson(v))).tabs == ReadTabs(Present(TabsJson(v.tabs)))
  {
    var tabs := TabsJson(v.tabs);
    ReviewKeys(v, tabs, ButtonsJson(v.buttons), FooterJson(v.footer));
    if ReviewJson(v) != map[] {
      ChildRead(ReviewJson(v), "tabs", tabs);
    }
  }

  lemma ReviewRoundTrip(v: Review)
    ensures KeptReview(ReadReview(Present(ReviewJson(v))), v)
  {
    var tabs := TabsJson(v.tabs);
    var buttons := ButtonsJson(v.buttons);
    var footer := FooterJson(v.footer);
    ReviewKeys(v, tabs, buttons, footer);
    ReviewEmpty(v);
    ButtonsReadBack(v.buttons);
    FooterReadBack(v.footer);
    ReviewTabsRead(v);
    TabsRoundTrip(v.tabs);
    if ReviewJson(v) != map[] {
      ChildRead(ReviewJson(v), "buttons", buttons);
      ChildRead(ReviewJson(v), "footer", footer);
    }
  }

  /** Every text value the record holds is read back from the rendered document at the same path. */
  lemma TextRoundTrip(c: ConfigValue, base: ConfigValue)
    ensures KeptLanding(ReadJson(base, Render(c)).text.landing, c.text.landing)
    ensures KeptReview(ReadJson(base, Render(c)).text.review, c.text.review)
    ensures c.text == NO_TEXT ==> ReadJson(base, Render(c)).text == NO_TEXT
  {
    var text := TextJson(c.text);
    ConfigSectionKeys(c, GvlJson(c.gvl), CustomUIJson(c.customUI), InAppJson(c.inApp), LegalBasesJson(c.legalBases), text);
    ChildRead(Render(c), "text", text);
    TextKeys(LandingJson(c.text.landing), ReviewJson(c.text.review));
    TextEmpty(c.text);
    LandingRoundTrip(c.text.landing);
    ReviewRoundTrip(c.text.review);
    if text != map[] {
      ChildRead(text, "landing", LandingJson(c.text.landing));
      ChildRead(text, "review", ReviewJson(c.text.review));
    }
  }

  /** Every customUI value the record holds is read back from the rendered document. */
  lemma CustomUIRoundTrip(c: ConfigValue, base: ConfigValue)
    ensures KeptCustomUI(ReadJson(base, Render(c)).customUI, c.customUI)
    ensures c.customUI == NO_CUSTOM_UI ==> ReadJson(base, Render(c)).customUI == NO_CUSTOM_UI
  {
    var ui := CustomUIJson(c.customUI);
    ConfigSectionKeys(c, GvlJson(c.gvl), ui, InAppJson(c.inApp), LegalBasesJson(c.legalBases), TextJson(c.text));
    ChildRead(Render(c), "customUI", ui);
    CustomUIReadBack(c.customUI);
  }

  lemma CustomUIReadBack(u: CustomUI)
    ensures KeptCustomUI(ReadCustomUI(Present(CustomUIJson(u))), u)
    ensures u == NO_CUSTOM_UI ==> ReadCustomUI(Present(CustomUIJson(u))) == NO_CUSTOM_UI
  {
    CustomUIKeys(u);
  }

  /** Arrays are not defaulted, so the legal bases come back exactly, nulls included. */
  lemma LegalBasesRoundTrip(c: ConfigValue, base: ConfigValue)
    ensures ReadJson(base, Render(c)).legalBases == c.legalBases
  {
    var bases := LegalBasesJson(c.legalBases);
    ConfigSectionKeys(c, GvlJson(c.gvl), CustomUIJson(c.customUI), InAppJson(c.inApp), bases, TextJson(c.text));
    ChildRead(Render(c), "legalBases", bases);
    LegalBasesReadBack(c.legalBases);
  }

  lemma LegalBasesReadBack(b: LegalBases)
    ensures ReadLegalBases(Present(LegalBasesJson(b))) == b
  {
    var bases := LegalBasesJson(b);
    var purpose := LegalBasesPurposeJson(b);
    LegalBasesKeys(b, purpose);
    LegalBasesPurposeKeys(b);
    LegalBasesEmpty(b);
    if bases != map[] {
      ChildRead(bases, "purpose", purpose);
    }
  }

  /**
   * The GVL override does not survive: the serializer writes `latest` and
   * `versioned`, the reader looks for `latestFilename` and `versionedFilename`,
   * so both come back as "" whatever the record held. Only `baseUrl` is kept.
   */
  lemma GvlFileNamesLost(c: ConfigValue, base: ConfigValue)
    ensures c.gvl == NO_GVL ==> ReadJson(base, Render(c)).gvl == NO_GVL
    ensures c.gvl != NO_GVL ==> ReadJson(base, Render(c)).gvl.latest == Some("")
    ensures c.gvl != NO_GVL ==> ReadJson(base, Render(c)).gvl.versioned == Some("")
    ensures Kept(ReadJson(base, Render(c)).gvl.baseUrl, c.gvl.baseUrl)
  {
    var gvl := GvlJson(c.gvl);
    ConfigSectionKeys(c, gvl, CustomUIJson(c.customUI), InAppJson(c.inApp), LegalBasesJson(c.legalBases), TextJson(c.text));
    ChildRead(Render(c), "GVL", gvl);
    GvlReadBack(c.gvl);
  }

  lemma GvlReadBack(g: Gvl)
    ensures g == NO_GVL ==> ReadGvl(Present(GvlJson(g))) == NO_GVL
    ensures g != NO_GVL ==> ReadGvl(Present(GvlJson(g))).latest == Some("")
    ensures g != NO_GVL ==> ReadGvl(Present(GvlJson(g))).versioned == Some("")
    ensures Kept(ReadGvl(Present(GvlJson(g))).baseUrl, g.baseUrl)
  {
    GvlKeys(g);
    GvlLacksFileNameKeys(g);
  }

  /** The serializer's GVL object has no `latestFilename` or `versionedFilename` key. */
  lemma GvlLacksFileNameKeys(g: Gvl)
    ensures "latestFilename" !in GvlJson(g) && "versionedFilename" !in GvlJson(g)
  {
    var ps := [("latest", Str(g.latest)), ("versioned", Str(g.versioned)), ("baseUrl", Str(g.baseUrl))];
    assert GvlPuts(g) == ps;
    FindMissing(ps, "latestFilename");
    FindMissing(ps, "versionedFilename");
    FillFind(ps, "latestFilename");
    FillFind(ps, "versionedFilename");
  }

  /** The top-level strings the reader assigns come back from the rendered document when present. */
  lemma TopLevelStringsRoundTrip(c: ConfigValue, base: ConfigValue)
    ensures Kept(ReadTopLevel(base, Render(c)).brandingImg, c.brandingImg)
    ensures Kept(ReadTopLevel(base, Render(c)).countryCode, c.countryCode)
    ensures Kept(ReadTopLevel(base, Render(c)).cssOverride, c.cssOverride)
    ensures Kept(ReadTopLevel(base, Render(c)).language, c.language)
    ensures Kept(ReadTopLevel(base, Render(c)).legalName, c.legalName)
    ensures Kept(ReadTopLevel(base, Render(c)).policyUrl, c.policyUrl)
    ensures Kept(ReadTopLevel(base, Render(c)).version, c.version)
  {
    var gvl, ui, inApp, bases, text := GvlJson(c.gvl), CustomUIJson(c.customUI), InAppJson(c.inApp), LegalBasesJson(c.legalBases), TextJson(c.text);
    ConfigFlagKeys(c, gvl, ui, inApp, bases, text);
    ConfigValueKeys(c, gvl, ui, inApp, bases, text);
  }

  /** `gdprAppliesGlobally` and `minShowDays` come back as the boolean and the number written. */
  lemma TopLevelFlagsRoundTrip(c: ConfigValue, base: ConfigValue)
    ensures Kept(ReadTopLevel(base, Render(c)).gdprAppliesGlobally, c.gdprAppliesGlobally)
    ensures Kept(ReadTopLevel(base, Render(c)).minShowDays, c.minShowDays)
  {
    var gvl, ui, inApp, bases, text := GvlJson(c.gvl), CustomUIJson(c.customUI), InAppJson(c.inApp), LegalBasesJson(c.legalBases), TextJson(c.text);
    ConfigFlagKeys(c, gvl, ui, inApp, bases, text);
    ConfigValueKeys(c, gvl, ui, inApp, bases, text);
  }

  /**
   * Render, then read: every value the reader assigns and the record holds comes
   * back unchanged, except the two GVL file names.
   */
  lemma RenderThenRead(c: ConfigValue, base: ConfigValue)
    ensures var r := ReadJson(base, Render(c));
      && Kept(r.brandingImg, c.brandingImg) && Kept(r.countryCode, c.countryCode)
      && Kept(r.cssOverride, c.cssOverride) && Kept(r.gdprAppliesGlobally, c.gdprAppliesGlobally)
      && Kept(r.language, c.language) && Kept(r.legalName, c.legalName) && Kept(r.minShowDays, c.minShowDays)
      && Kept(r.policyUrl, c.policyUrl) && Kept(r.version, c.version)
      && KeptCustomUI(r.customUI, c.customUI) && r.legalBases == c.legalBases
      && KeptLanding(r.text.landing, c.text.landing) && KeptReview(r.text.review, c.text.review)
      && Kept(r.gvl.baseUrl, c.gvl.baseUrl)
  {
    TopLevelStringsRoundTrip(c, base);
    TopLevelFlagsRoundTrip(c, base);
    CustomUIRoundTrip(c, base);
    LegalBasesRoundTrip(c, base);
    TextRoundTrip(c, base);
    GvlFileNamesLost(c, base);
  }
}
