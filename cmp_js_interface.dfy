/**
 * The callback decoder (CmpJsInterface.kt): each callback the embedded script
 * makes is routed to one consent-store setter; booleans are stored as 1 or 0.
 * What the interface asks of the web view and the activity is recorded as a
 * list of requests to the presentation shell.
 */
module CmpJsInterface {
  import opened Wrappers
  import opened Numerals
  import opened SharedPreferences
  import opened ConsentStorage

  /** A request the interface makes of the presentation shell. */
  datatype ShellRequest =
    | EndCmp            // `webView.endCmp()`: the session is over
    | DestroyWebView    // the consent-check web view is destroyed (posted to the main looper)
    | StartCmpActivity  // the consent dialog is started

  /** Kotlin `Boolean.toInt()` as the interface defines it. */
  function ToInt(b: bool): (r: Int32)
    ensures r == 0 || r == 1
    ensures r == 1 <==> b
  {
    if b then 1 else 0
  }

  class CmpJsInterface {
    const store: ConsentStorage
    /** Requests made of the shell so far, oldest first. */
    var shell: seq<ShellRequest>

    constructor (store: ConsentStorage)
      ensures this.store == store && shell == []
    {
      this.store := store;
      shell := [];
    }

    method StoreCmpSdkId(cmpSdkId: Int32)
      modifies store.prefs
      ensures store.prefs.entries == old(store.prefs.entries)[CMP_SDK_ID := IntPref(cmpSdkId)]
    {
      store.SetCmpSdkId(cmpSdkId);
    }

    method StoreCmpSdkVersion(sdkVersion: string)
      modifies store.prefs
      ensures store.prefs.entries == old(store.prefs.entries)[CMP_SDK_VERSION := StrPref(sdkVersion)]
    {
      store.SetCmpSdkVersion(sdkVersion);
    }

    method StorePolicyVersion(policyVersion: Int32)
      modifies store.prefs
      ensures store.prefs.entries == old(store.prefs.entries)[POLICY_VERSION := IntPref(policyVersion)]
    {
      store.SetPolicyVersion(policyVersion);
    }

    /** Always writes 1 or 0: through this callback the key is never left undetermined. */
    method StoreGdprApplies(applies: bool)
      modifies store.prefs
      ensures store.prefs.entries == old(store.prefs.entries)[GDPR_APPLIES := IntPref(ToInt(applies))]
    {
      store.SetGdprApplies(Some(ToInt(applies)));
    }

    method StoreCountryCode(countryCode: string)
      modifies store.prefs
      ensures store.prefs.entries == old(store.prefs.entries)[PUBLISHER_CC := StrPref(countryCode)]
    {
      store.SetIabPublisherCc(countryCode);
    }

    method StorePurposeOneTreatment(purposeOne: bool)
      modifies store.prefs
      ensures store.prefs.entries == old(store.prefs.entries)[PURPOSE_ONE_TREATMENT := IntPref(ToInt(purposeOne))]
    {
      store.SetPurposeOneTreatment(ToInt(purposeOne));
    }

    method StoreUseNonStandardStacks(used: bool)
      modifies store.prefs
      ensures store.prefs.entries == old(store.prefs.entries)[USE_NON_STANDARD_STACKS := IntPref(ToInt(used))]
    {
      store.SetUseNonStandardStacks(ToInt(used));
    }

    method StoreTCString(tcString: string)
      modifies store.prefs
      ensures store.prefs.entries == old(store.prefs.entries)[TC_STRING := StrPref(tcString)]
    {
      store.SetTcString(tcString);
    }

    method StoreVendorConsents(consents: string)
      modifies store.prefs
      ensures store.prefs.entries == old(store.prefs.entries)[VENDOR_CONSENTS := StrPref(consents)]
    {
      store.SetVendorConsents(consents);
    }

    method StoreVendorLegitimateInterests(vendorLegitimateInterests: string)
      modifies store.prefs
      ensures store.prefs.entries == old(store.prefs.entries)[VENDOR_LEGITIMATE_INTERESTS := StrPref(vendorLegitimateInterests)]
    {
      store.SetVendorLegitimateInterests(vendorLegitimateInterests);
    }

    method StorePurposeConsents(purposeConsents: string)
      modifies store.prefs
      ensures store.prefs.entries == old(store.prefs.entries)[PURPOSE_CONSENTS := StrPref(purposeConsents)]
    {
      store.SetPurposeConsents(purposeConsents);
    }

    method StorePurposeLegitimateInterests(purposeLegitimateInterests: string)
      modifies store.prefs
      ensures store.prefs.entries == old(store.prefs.entries)[PURPOSE_LEGITIMATE_INTERESTS := StrPref(purposeLegitimateInterests)]
    {
      store.SetPurposeLegitimateInterests(purposeLegitimateInterests);
    }

    method StoreSpecialFeaturesOptIns(specialFeaturesOptIns: string)
      modifies store.prefs
      ensures store.prefs.entries == old(store.prefs.entries)[SPECIAL_FEATURES_OPT_INS := StrPref(specialFeaturesOptIns)]
    {
      store.SetSpecialFeaturesOptIns(specialFeaturesOptIns);
    }

    method StorePublisherRestrictions(purpose: string, restrictions: string)
      modifies store.prefs
      ensures store.prefs.entries == old(store.prefs.entries)[RestrictionKey(purpose) := StrPref(restrictions)]
    {
      store.SetPublisherRestrictions(purpose, restrictions);
    }

    method StorePublisherConsent(publisherConsent: string)
      modifies store.prefs
      ensures store.prefs.entries == old(store.prefs.entries)[PUBLISHER_CONSENT := StrPref(publisherConsent)]
    {
      store.SetPublisherConsent(publisherConsent);
    }

    method StorePublisherLegitimateInterests(publisherLegitimateInterests: string)
      modifies store.prefs
      ensures store.prefs.entries == old(store.prefs.entries)[PUBLISHER_LEGITIMATE_INTERESTS := StrPref(publisherLegitimateInterests)]
    {
      store.SetPublisherLegitimateInterests(publisherLegitimateInterests);
    }

    method StorePublisherCustomPurposesConsents(publisherCustomPurposesConsents: string)
      modifies store.prefs
      ensures store.prefs.entries == old(store.prefs.entries)[PUBLISHER_CUSTOM_PURPOSES_CONSENTS := StrPref(publisherCustomPurposesConsents)]
    {
      store.SetPublisherCustomPurposesConsents(publisherCustomPurposesConsents);
    }

    method StorePublisherCustomPurposesLegitimateInterests(publisherCustomPurposesLegitimateInterests: string)
      modifies store.prefs
      ensures store.prefs.entries == old(store.prefs.entries)[PUBLISHER_CUSTOM_PURPOSES_LEGITIMATE_INTERESTS := StrPref(publisherCustomPurposesLegitimateInterests)]
    {
      store.SetPublisherCustomPurposesLegitimateInterests(publisherCustomPurposesLegitimateInterests);
    }

    method StoreConfigVersion(configVersion: string)
      modifies store.prefs
      ensures store.prefs.entries == old(store.prefs.entries)[CONFIG_VERSION := StrPref(configVersion)]
    {
      store.SetConfigVersion(configVersion);
    }

    /** The session is complete: the shell is asked to end it, and the store is not touched. */
    method CmpComplete()
      modifies this
      ensures shell == old(shell) + [EndCmp]
      ensures store.prefs.entries == old(store.prefs.entries)
    {
      shell := shell + [EndCmp];
    }

    /**
     * The consent check's verdict: the check web view is destroyed either way;
     * when consent is needed, gdprApplies becomes 1 and the dialog is started.
     */
    method LoadCmp(consentNeeded: bool)
      modifies this, store.prefs
      ensures consentNeeded ==> store.prefs.entries == old(store.prefs.entries)[GDPR_APPLIES := IntPref(1)]
      ensures !consentNeeded ==> store.prefs.entries == old(store.prefs.entries)
      ensures shell == old(shell) + [DestroyWebView] + (if consentNeeded then [StartCmpActivity] else [])
    {
      shell := shell + [DestroyWebView];
      if consentNeeded {
        store.SetGdprApplies(Some(1));
        shell := shell + [StartCmpActivity];
      }
    }
  }

  // ---------------------------------------------------------------------------
  // A batch of callbacks, as the display script delivers them

  /** The store after one `storePublisherRestrictions` call per (purpose, restriction) pair, in order. */
  function StoreRestrictions(entries: Entries, rs: seq<(string, string)>): Entries
    decreases |rs|
  {
    if rs == [] then entries
    else StoreRestrictions(Stored(entries, RestrictionKey(rs[0].0), Some(StrPref(rs[0].1))), rs[1..])
  }

  /** No purpose id occurs twice. */
  predicate DistinctPurposes(rs: seq<(string, string)>) {
    forall i, j | 0 <= i < j < |rs| :: rs[i].0 != rs[j].0
  }

  /**
   * Storing restrictions for distinct purposes leaves one entry per purpose,
   * each holding its own restriction; every other key is as before.
   */
  lemma {:induction false} RestrictionsOnePerPurpose(entries: Entries, rs: seq<(string, string)>)
    requires DistinctPurposes(rs)
    ensures forall i | 0 <= i < |rs| ::
              RestrictionKey(rs[i].0) in StoreRestrictions(entries, rs) &&
              StoreRestrictions(entries, rs)[RestrictionKey(rs[i].0)] == StrPref(rs[i].1)
    ensures forall k | k in entries && (forall i | 0 <= i < |rs| :: k != RestrictionKey(rs[i].0)) ::
              k in StoreRestrictions(entries, rs) && StoreRestrictions(entries, rs)[k] == entries[k]
    decreases |rs|
  {
    if rs != [] {
      var e1 := Stored(entries, RestrictionKey(rs[0].0), Some(StrPref(rs[0].1)));
      var tail := rs[1..];
      assert DistinctPurposes(tail);
      RestrictionsOnePerPurpose(e1, tail);
      assert StoreRestrictions(entries, rs) == StoreRestrictions(e1, tail);
      forall i | 0 <= i < |rs|
        ensures RestrictionKey(rs[i].0) in StoreRestrictions(entries, rs)
        ensures StoreRestrictions(entries, rs)[RestrictionKey(rs[i].0)] == StrPref(rs[i].1)
      {
        if i == 0 {
          forall j | 0 <= j < |tail| ensures RestrictionKey(rs[0].0) != RestrictionKey(tail[j].0) {
            assert tail[j] == rs[j + 1];
            RestrictionKeysDistinct(rs[0].0, tail[j].0);
          }
        } else {
          assert rs[i] == tail[i - 1];
        }
      }
      forall k | k in entries && (forall i | 0 <= i < |rs| :: k != RestrictionKey(rs[i].0))
        ensures k in StoreRestrictions(entries, rs) && StoreRestrictions(entries, rs)[k] == entries[k]
      {
        assert k != RestrictionKey(rs[0].0);
        forall j | 0 <= j < |tail| ensures k != RestrictionKey(tail[j].0) {
          assert tail[j] == rs[j + 1];
        }
      }
    }
  }
}
