/**
 * The consent store (ConsentStorage.kt): one setter per IAB TCF v2.0 in-app key
 * ("In-App Details" of the IAB TCF v2.0 CMP API specification) plus one
 * vendor-private key, each an unconditional overwrite in the preferences store.
 */
module ConsentStorage {
  import opened Wrappers
  import opened Numerals
  import opened SharedPreferences

  // The keys, as the store spells them.
  const CMP_SDK_ID := "IABTCF_CmpSdkID"
  const CMP_SDK_VERSION := "IABTCF_CmpSdkVersion"
  const POLICY_VERSION := "IABTCF_PolicyVersion"
  const GDPR_APPLIES := "IABTCF_gdprApplies"
  const PUBLISHER_CC := "IABTCF_PublisherCC"
  const PURPOSE_ONE_TREATMENT := "IABTCF_PurposeOneTreatment"
  const USE_NON_STANDARD_STACKS := "IABTCF_UseNonStandardStacks"
  const TC_STRING := "IABTCF_TCString"
  const VENDOR_CONSENTS := "IABTCF_VendorConsents"
  const VENDOR_LEGITIMATE_INTERESTS := "IABTCF_VendorLegitimateInterests"
  const PURPOSE_CONSENTS := "IABTCF_PurposeConsents"
  const PURPOSE_LEGITIMATE_INTERESTS := "IABTCF_PurposeLegitimateInterests"
  const SPECIAL_FEATURES_OPT_INS := "IABTCF_SpecialFeaturesOptIns"
  const PUBLISHER_RESTRICTIONS := "IABTCF_PublisherRestrictions"
  const PUBLISHER_CONSENT := "IABTCF_PublisherConsent"
  const PUBLISHER_LEGITIMATE_INTERESTS := "IABTCF_PublisherLegitimateInterests"
  const PUBLISHER_CUSTOM_PURPOSES_CONSENTS := "IABTCF_PublisherCustomPurposesConsents"
  const PUBLISHER_CUSTOM_PURPOSES_LEGITIMATE_INTERESTS := "IABTCF_PublisherCustomPurposesLegitimateInterests"
  const CONFIG_VERSION := "CNVR_PublisherConfigVersion"

  /** The publisher country code stored when none is given: unknown. */
  const DEFAULT_PUBLISHER_CC := "AA"
  /** The purpose-one treatment stored when none is given: no special treatment. */
  const DEFAULT_PURPOSE_ONE_TREATMENT: Int32 := 0

  /** The keys written as `Int`; every other fixed key is written as a `String`. */
  const INT_KEYS: set<string> := {CMP_SDK_ID, POLICY_VERSION, GDPR_APPLIES, PURPOSE_ONE_TREATMENT, USE_NON_STANDARD_STACKS}
  const STRING_KEYS: set<string> :=
    {CMP_SDK_VERSION, PUBLISHER_CC, TC_STRING, VENDOR_CONSENTS, VENDOR_LEGITIMATE_INTERESTS, PURPOSE_CONSENTS,
     PURPOSE_LEGITIMATE_INTERESTS, SPECIAL_FEATURES_OPT_INS, PUBLISHER_CONSENT, PUBLISHER_LEGITIMATE_INTERESTS,
     PUBLISHER_CUSTOM_PURPOSES_CONSENTS, PUBLISHER_CUSTOM_PURPOSES_LEGITIMATE_INTERESTS, CONFIG_VERSION}

  /** The per-purpose restriction key: the base key with the purpose id appended. */
  function RestrictionKey(purpose: string): (key: string)
    ensures PUBLISHER_RESTRICTIONS <= key && key[|PUBLISHER_RESTRICTIONS|..] == purpose
  {
    PUBLISHER_RESTRICTIONS + purpose
  }

  /**
   * The store after `setConsentValue(key, value)`: a `String` or an `Int` is put
   * under `key`; a null (`None`) writes nothing.
   */
  function Stored(entries: Entries, key: string, value: Option<Pref>): (r: Entries)
    ensures value.None? ==> r == entries
    ensures value.Some? ==> key in r && r[key] == value.value
    ensures r.Keys == entries.Keys + (if value.Some? then {key} else {})
    ensures forall k | k in entries && k != key :: r[k] == entries[k]
  {
    match value
    case Some(v) => entries[key := v]
    case None => entries
  }

  class ConsentStorage {
    /** The default shared preferences of the application. */
    const prefs: Preferences

    constructor (prefs: Preferences)
      ensures this.prefs == prefs
    {
      this.prefs := prefs;
    }

    /** `setConsentValue`: the only place the store is written. */
    method SetConsentValue(preferenceKey: string, consentValue: Option<Pref>)
      modifies prefs
      ensures prefs.entries == Stored(old(prefs.entries), preferenceKey, consentValue)
    {
      match consentValue {
        case Some(StrPref(s)) =>
          prefs.entries := prefs.entries[preferenceKey := StrPref(s)];
        case Some(IntPref(i)) =>
          prefs.entries := prefs.entries[preferenceKey := IntPref(i)];
        case None =>
      }
    }

    method SetCmpSdkId(sdkId: Int32)
      modifies prefs
      ensures prefs.entries == old(prefs.entries)[CMP_SDK_ID := IntPref(sdkId)]
    {
      SetConsentValue(CMP_SDK_ID, Some(IntPref(sdkId)));
    }

    method SetCmpSdkVersion(sdkVersion: string)
      modifies prefs
      ensures prefs.entries == old(prefs.entries)[CMP_SDK_VERSION := StrPref(sdkVersion)]
    {
      SetConsentValue(CMP_SDK_VERSION, Some(StrPref(sdkVersion)));
    }

    method SetPolicyVersion(policyVersion: Int32)
      modifies prefs
      ensures prefs.entries == old(prefs.entries)[POLICY_VERSION := IntPref(policyVersion)]
    {
      SetConsentValue(POLICY_VERSION, Some(IntPref(policyVersion)));
    }

    /** `setGdprApplies(applies: Int? = null)`: a null leaves the key unset (undetermined). */
    method SetGdprApplies(applies: Option<Int32> := None)
      modifies prefs
      ensures applies.None? ==> prefs.entries == old(prefs.entries)
      ensures applies.Some? ==> prefs.entries == old(prefs.entries)[GDPR_APPLIES := IntPref(applies.value)]
    {
      var value: Option<Pref> := if applies.Some? then Some(IntPref(applies.value)) else None;
      SetConsentValue(GDPR_APPLIES, value);
    }

    /** `setIabPublisherCc(countryCode: String = "AA")`: the code defaults to `DEFAULT_PUBLISHER_CC`. */
    method SetIabPublisherCc(countryCode: string := DEFAULT_PUBLISHER_CC)
      modifies prefs
      ensures prefs.entries == old(prefs.entries)[PUBLISHER_CC := StrPref(countryCode)]
    {
      SetConsentValue(PUBLISHER_CC, Some(StrPref(countryCode)));
    }

    /** `setPurposeOneTreatment(purposeOne: Int = 0)`: the value defaults to `DEFAULT_PURPOSE_ONE_TREATMENT`. */
    method SetPurposeOneTreatment(purposeOne: Int32 := DEFAULT_PURPOSE_ONE_TREATMENT)
      modifies prefs
      ensures prefs.entries == old(prefs.entries)[PURPOSE_ONE_TREATMENT := IntPref(purposeOne)]
    {
      SetConsentValue(PURPOSE_ONE_TREATMENT, Some(IntPref(purposeOne)));
    }

    method SetUseNonStandardStacks(used: Int32)
      modifies prefs
      ensures prefs.entries == old(prefs.entries)[USE_NON_STANDARD_STACKS := IntPref(used)]
    {
      SetConsentValue(USE_NON_STANDARD_STACKS, Some(IntPref(used)));
    }

    method SetTcString(tcString: string)
      modifies prefs
      ensures prefs.entries == old(prefs.entries)[TC_STRING := StrPref(tcString)]
    {
      SetConsentValue(TC_STRING, Some(StrPref(tcString)));
    }

    method SetVendorConsents(vendorConsents: string)
      modifies prefs
      ensures prefs.entries == old(prefs.entries)[VENDOR_CONSENTS := StrPref(vendorConsents)]
    {
      SetConsentValue(VENDOR_CONSENTS, Some(StrPref(vendorConsents)));
    }

    method SetVendorLegitimateInterests(vendorLegitimateInterests: string)
      modifies prefs
      ensures prefs.entries == old(prefs.entries)[VENDOR_LEGITIMATE_INTERESTS := StrPref(vendorLegitimateInterests)]
    {
      SetConsentValue(VENDOR_LEGITIMATE_INTERESTS, Some(StrPref(vendorLegitimateInterests)));
    }

    method SetPurposeConsents(purposeConsents: string)
      modifies prefs
      ensures prefs.entries == old(prefs.entries)[PURPOSE_CONSENTS := StrPref(purposeConsents)]
    {
      SetConsentValue(PURPOSE_CONSENTS, Some(StrPref(purposeConsents)));
    }

    method SetPurposeLegitimateInterests(purposeLegitimateInterests: string)
      modifies prefs
      ensures prefs.entries == old(prefs.entries)[PURPOSE_LEGITIMATE_INTERESTS := StrPref(purposeLegitimateInterests)]
    {
      SetConsentValue(PURPOSE_LEGITIMATE_INTERESTS, Some(StrPref(purposeLegitimateInterests)));
    }

    method SetSpecialFeaturesOptIns(specialFeaturesOptIns: string)
      modifies prefs
      ensures prefs.entries == old(prefs.entries)[SPECIAL_FEATURES_OPT_INS := StrPref(specialFeaturesOptIns)]
    {
      SetConsentValue(SPECIAL_FEATURES_OPT_INS, Some(StrPref(specialFeaturesOptIns)));
    }

    /** One entry per purpose id: the key is the base key followed by `purpose`. */
    method SetPublisherRestrictions(purpose: string, restrictions: string)
      modifies prefs
      ensures prefs.entries == old(prefs.entries)[RestrictionKey(purpose) := StrPref(restrictions)]
    {
      SetConsentValue(PUBLISHER_RESTRICTIONS + purpose, Some(StrPref(restrictions)));
    }

    method SetPublisherConsent(publisherConsent: string)
      modifies prefs
      ensures prefs.entries == old(prefs.entries)[PUBLISHER_CONSENT := StrPref(publisherConsent)]
    {
      SetConsentValue(PUBLISHER_CONSENT, Some(StrPref(publisherConsent)));
    }

    method SetPublisherLegitimateInterests(publisherLegitimateInterests: string)
      modifies prefs
      ensures prefs.entries == old(prefs.entries)[PUBLISHER_LEGITIMATE_INTERESTS := StrPref(publisherLegitimateInterests)]
    {
      SetConsentValue(PUBLISHER_LEGITIMATE_INTERESTS, Some(StrPref(publisherLegitimateInterests)));
    }

    method SetPublisherCustomPurposesConsents(publisherCustomPurposesConsents: string)
      modifies prefs
      ensures prefs.entries == old(prefs.entries)[PUBLISHER_CUSTOM_PURPOSES_CONSENTS := StrPref(publisherCustomPurposesConsents)]
    {
      SetConsentValue(PUBLISHER_CUSTOM_PURPOSES_CONSENTS, Some(StrPref(publisherCustomPurposesConsents)));
    }

    method SetPublisherCustomPurposesLegitimateInterests(publisherCustomPurposesLegitimateInterests: string)
      modifies prefs
      ensures prefs.entries == old(prefs.entries)[PUBLISHER_CUSTOM_PURPOSES_LEGITIMATE_INTERESTS := StrPref(publisherCustomPurposesLegitimateInterests)]
    {
      SetConsentValue(PUBLISHER_CUSTOM_PURPOSES_LEGITIMATE_INTERESTS, Some(StrPref(publisherCustomPurposesLegitimateInterests)));
    }

    /** The vendor-private key the configuration reads back as `InApp.storedVersion`. */
    method SetConfigVersion(configVersion: string)
      modifies prefs
      ensures prefs.entries == old(prefs.entries)[CONFIG_VERSION := StrPref(configVersion)]
    {
      SetConsentValue(CONFIG_VERSION, Some(StrPref(configVersion)));
    }
  }

  // ---------------------------------------------------------------------------
  // Properties of the store

  /** Writing is last-write-wins: a second write to the same key replaces the first. */
  lemma LastWriteWins(entries: Entries, key: string, v1: Pref, v2: Pref)
    ensures Stored(Stored(entries, key, Some(v1)), key, Some(v2)) == Stored(entries, key, Some(v2))
  {
    var r1 := Stored(Stored(entries, key, Some(v1)), key, Some(v2));
    var r2 := Stored(entries, key, Some(v2));
    assert r1.Keys == r2.Keys;
    forall k | k in r1 ensures r1[k] == r2[k] {
    }
  }

  /** Writing the same value twice is writing it once: a repeated callback changes nothing. */
  lemma {:induction false} ReplayIdempotent(entries: Entries, key: string, value: Option<Pref>)
    ensures Stored(Stored(entries, key, value), key, value) == Stored(entries, key, value)
  {
    if value.Some? {
      LastWriteWins(entries, key, value.value, value.value);
    }
  }

  /** Writes to different keys do not interfere: either order gives the same store. */
  lemma WritesCommute(entries: Entries, k1: string, v1: Pref, k2: string, v2: Pref)
    requires k1 != k2
    ensures Stored(Stored(entries, k1, Some(v1)), k2, Some(v2)) == Stored(Stored(entries, k2, Some(v2)), k1, Some(v1))
  {
    var a := Stored(Stored(entries, k1, Some(v1)), k2, Some(v2));
    var b := Stored(Stored(entries, k2, Some(v2)), k1, Some(v1));
    assert a.Keys == b.Keys;
    forall k | k in a ensures a[k] == b[k] {
    }
  }

  /** Different purpose ids give different restriction keys. */
  lemma RestrictionKeysDistinct(p1: string, p2: string)
    ensures RestrictionKey(p1) == RestrictionKey(p2) <==> p1 == p2
  {
    if RestrictionKey(p1) == RestrictionKey(p2) {
      assert p1 == RestrictionKey(p1)[|PUBLISHER_RESTRICTIONS|..];
    }
  }

  /**
   * Restrictions for two different purposes are two entries: storing purpose 1
   * then purpose 3 keeps both.
   */
  lemma TwoPurposesTwoEntries(entries: Entries, p1: string, r1: string, p2: string, r2: string)
    requires p1 != p2
    ensures var e := Stored(Stored(entries, RestrictionKey(p1), Some(StrPref(r1))), RestrictionKey(p2), Some(StrPref(r2)));
            e[RestrictionKey(p1)] == StrPref(r1) && e[RestrictionKey(p2)] == StrPref(r2)
  {
    RestrictionKeysDistinct(p1, p2);
  }

  /** A restriction key is never one of the fixed keys the configuration reads back. */
  lemma RestrictionKeyNotReadBack(purpose: string)
    ensures RestrictionKey(purpose) != TC_STRING && RestrictionKey(purpose) != CONFIG_VERSION
  {
    var k := RestrictionKey(purpose);
    assert k[0] == 'I' && k[7] == 'P';
    assert CONFIG_VERSION[0] == 'C' && TC_STRING[7] == 'T';
  }

  /** The `Int` keys and the `String` keys are disjoint, and the two read-back keys are `String` keys. */
  lemma KeyTypesDisjoint()
    ensures INT_KEYS !! STRING_KEYS
    ensures TC_STRING in STRING_KEYS && CONFIG_VERSION in STRING_KEYS
  {
  }

  /**
   * A store that holds a string (or nothing) under each `String` key keeps doing
   * so after any setter writes its key with its declared type.
   */
  predicate WellTyped(entries: Entries) {
    forall k | k in STRING_KEYS && k in entries :: entries[k].StrPref?
  }

  lemma {:induction false} IntWriteKeepsWellTyped(entries: Entries, key: string, v: Int32)
    requires WellTyped(entries) && key in INT_KEYS
    ensures WellTyped(Stored(entries, key, Some(IntPref(v))))
  {
    KeyTypesDisjoint();
  }

  /** After `setTcString(s)`, the configuration's `getString("IABTCF_TCString", "")` reads `s`. */
  lemma TcStringReadBack(entries: Entries, s: string)
    ensures GetString(Stored(entries, TC_STRING, Some(StrPref(s))), TC_STRING, "") == s
  {
  }

  /** After `setConfigVersion(v)`, the configuration's `getString("CNVR_PublisherConfigVersion", "")` reads `v`. */
  lemma ConfigVersionReadBack(entries: Entries, v: string)
    ensures GetString(Stored(entries, CONFIG_VERSION, Some(StrPref(v))), CONFIG_VERSION, "") == v
  {
  }
}
