/**
 * The entry class (CnvrCmp.kt): the two ways of building the configuration
 * record (from the manifest, then checked for the required fields; or from a
 * JSON document, not checked), and the consent reset `editConsents`.
 * The record is the process-wide singleton, passed in as `config`.
 */
module CnvrCmp {
  import opened Wrappers
  import opened JsonTree
  import opened CmpExceptions
  import opened SharedPreferences
  import opened CmpConfigObject
  import opened JsonConfigReader
  import opened ManifestReader

  const COUNTRY_CODE_MESSAGE := "Invalid or null Country Code in the "
  const VERSION_MESSAGE := "String representing Config Version is required in the "

  /**
   * `validate(source)`: the country code is required, then the config version;
   * when both are missing only the country code is reported.
   */
  function Validate(c: ConfigValue, source: string): (r: Outcome<CmpError>)
    ensures r.Pass? <==> c.countryCode.Some? && c.version.Some?
    ensures c.countryCode.None? ==> r == Fail(CnvrCmpException(COUNTRY_CODE_MESSAGE + source))
    ensures c.countryCode.Some? && c.version.None? ==> r == Fail(CnvrCmpException(VERSION_MESSAGE + source))
  {
    if c.countryCode.None? then Fail(CnvrCmpException(COUNTRY_CODE_MESSAGE + source))
    else if c.version.None? then Fail(CnvrCmpException(VERSION_MESSAGE + source))
    else Pass
  }

  /**
   * The manifest constructor: read the manifest, then validate. An exception
   * from the reader leaves validation undone.
   */
  function InitFromManifest(c: ConfigValue, md: MetaData, isAbsolute: string -> bool): (r: Read)
    ensures r.config == ReadManifest(c, md, isAbsolute).config
    ensures r.outcome.Pass? ==> r.config.countryCode.Some? && r.config.version.Some?
    ensures ReadManifest(c, md, isAbsolute).outcome.Fail? ==> r.outcome == ReadManifest(c, md, isAbsolute).outcome
    ensures ReadManifest(c, md, isAbsolute).outcome.Pass? ==> r.outcome == Validate(r.config, "manifest")
    ensures r.outcome.Pass? <==> MinShowDays(md).Success? && "CNVR_CMP_Country_Code" in md && "CNVR_CMP_Config_Version" in md
  {
    var read := ReadManifest(c, md, isAbsolute);
    if read.outcome.Fail? then read
    else Read(read.config, Validate(read.config, "manifest"))
  }

  /** The JSON constructor: read the document; nothing is validated. */
  function InitFromJson(c: ConfigValue, parsed: Result<JsonObject, string>): (r: Read)
    ensures parsed.Failure? ==> r == Read(c, Fail(CnvrCmpException(INVALID_CONFIG_PREFIX + parsed.error)))
    ensures parsed.Success? ==> r == Read(ReadJson(c, parsed.value), Pass)
  {
    match parsed
    case Failure(e) => Read(c, Fail(CnvrCmpException(INVALID_CONFIG_PREFIX + e)))
    case Success(root) => Read(ReadJson(c, root), Pass)
  }

  /** The configuration part of `editConsents`: no TC string, and GDPR applies. */
  function EditedConsents(c: ConfigValue): (c': ConfigValue)
    ensures c'.inApp.tcString == None && c'.gdprAppliesGlobally == Some(true)
    ensures c'.(inApp := c.inApp, gdprAppliesGlobally := c.gdprAppliesGlobally) == c
    ensures c'.inApp.deviceId == c.inApp.deviceId && c'.inApp.storedVersion == c.inApp.storedVersion
  {
    c.(inApp := c.inApp.(tcString := None), gdprAppliesGlobally := Some(true))
  }

  // ---------------------------------------------------------------------------
  // The operations, on the singleton

  /** `CnvrCmp(context)`. */
  method NewFromManifest(config: CmpConfig, md: MetaData, isAbsolute: string -> bool) returns (outcome: Outcome<CmpError>)
    modifies config
    ensures Read(config.Value(), outcome) == InitFromManifest(old(config.Value()), md, isAbsolute)
  {
    outcome := GetConfigFromManifest(config, md, isAbsolute);
    if outcome.Pass? {
      outcome := ValidateConfig(config, "manifest");
    }
  }

  /** `validate(source)` on the singleton's current contents. */
  method ValidateConfig(config: CmpConfig, source: string) returns (outcome: Outcome<CmpError>)
    ensures outcome == Validate(config.Value(), source)
  {
    if config.countryCode == None {
      return Fail(CnvrCmpException(COUNTRY_CODE_MESSAGE + source));
    }
    if config.version == None {
      return Fail(CnvrCmpException(VERSION_MESSAGE + source));
    }
    return Pass;
  }

  /** `CnvrCmp(context, cmpConfig)`, with the document already given to org.json. */
  method NewFromJson(config: CmpConfig, parsed: Result<JsonObject, string>) returns (outcome: Outcome<CmpError>)
    modifies config
    ensures Read(config.Value(), outcome) == InitFromJson(old(config.Value()), parsed)
  {
    outcome := BuildConfigFromJson(config, parsed);
  }

  /** `editConsents`, without starting the consent activity. */
  method EditConsents(config: CmpConfig)
    modifies config
    ensures config.Value() == EditedConsents(old(config.Value()))
  {
    config.inApp := config.inApp.(tcString := None);
    config.gdprAppliesGlobally := Some(true);
  }

  // ---------------------------------------------------------------------------
  // Properties

  /** A document that parses always passes `validate`: the reader fills countryCode and version with "" at worst. */
  lemma JsonConfigAlwaysValid(c: ConfigValue, root: JsonObject, source: string)
    ensures Validate(ReadJson(c, root), source) == Pass
  {
  }

  /** So the JSON constructor accepts a document with neither country code nor version. */
  lemma JsonInitSkipsRequiredFields(c: ConfigValue)
    ensures InitFromJson(c, Success(map[])).outcome == Pass
    ensures InitFromJson(c, Success(map[])).config.countryCode == Some("")
    ensures InitFromJson(c, Success(map[])).config.version == Some("")
  {
  }

  /** An empty manifest is rejected for its country code, the first required field. */
  lemma EmptyManifestRejected(c: ConfigValue, isAbsolute: string -> bool)
    ensures InitFromManifest(c, map[], isAbsolute).outcome == Fail(CnvrCmpException(COUNTRY_CODE_MESSAGE + "manifest"))
  {
    EmptyManifestIsNull(c, isAbsolute);
  }

  /**
   * The null TC string `editConsents` sets does not reach the page: the next
   * `getConfigString` reads it from the store again. What is rendered after a
   * reset differs from what would have been rendered only in `gdprAppliesGlobally`.
   */
  lemma EditThenRefresh(c: ConfigValue, prefs: Entries, deviceId: string)
    requires HoldsNoInt(prefs, PREF_TC_STRING) && HoldsNoInt(prefs, PREF_CONFIG_VERSION)
    ensures WithRuntime(EditedConsents(c), prefs, deviceId).inApp.tcString == Some(GetString(prefs, PREF_TC_STRING, ""))
    ensures WithRuntime(EditedConsents(c), prefs, deviceId)
            == WithRuntime(c, prefs, deviceId).(gdprAppliesGlobally := Some(true))
  {
  }

  /** Resetting consents twice is resetting them once. */
  lemma EditIdempotent(c: ConfigValue)
    ensures EditedConsents(EditedConsents(c)) == EditedConsents(c)
  {
  }
}
