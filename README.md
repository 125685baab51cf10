# gdprcmp consent bridge, modelled in Dafny

The gdprcmp library is an Android bridge to a web-based consent
management platform (IAB TCF v2). The model covers four parts of it:

- The process-wide configuration record (`CmpConfigObject.CmpConfig`). Its fields can be filled in two ways: from the application manifest (`ManifestReader`) or from a JSON document (`JsonConfigReader`).
- The validation done by the `CnvrCmp` constructors, and the consent reset `editConsents`.
- The serialisation of the record into the JSON document that is injected into the web page (`getConfigString`).
- The HTML page and embedded script (`BuildHtml`), and the callbacks that script makes back into the app (`CmpJsInterface`). Each callback stores one IAB value in the shared-preferences store (`ConsentStorage`).

Modules, one per source file or concept:

| module | file | models |
|---|---|---|
| `Wrappers`, `CmpExceptions` | `wrappers.dfy`, `cmp_exceptions.dfy` | nullable values, and "returns or throws" |
| `Numerals` | `numerals.dfy` | Kotlin `Int` (32-bit), `toString`/`toInt`, `absoluteValue` |
| `JsonTree` | `json_tree.dfy` | org.json objects as maps; `put` sequences; the `opt*` accessors |
| `SharedPreferences` | `shared_preferences.dfy` | the key/value store, as a class with a `map` field |
| `Tools` | `tools.dfy` | `stringToIntJSONArray`, `stringArrayToJSONArray` |
| `CmpConfigObject` | `cmp_config.dfy` | the record: a value type `ConfigValue`, plus the mutable singleton `CmpConfig`; `getConfigString` built object by object with `put` |
| `ConfigProperties` | `config_properties.dfy` | what the rendered document holds: keys, dropped empty objects, refresh |
| `JsonConfigReader` | `json_config_reader.dfy` | `buildConfigFromJSON`, and how it reads back a rendered document |
| `ManifestReader` | `manifest_reader.dfy` | `getConfigFromManifest`, `getUri`, `preventBack` |
| `CnvrCmp` | `cnvr_cmp.dfy` | the two constructors, `validate`, `editConsents` |
| `ConsentStorage` | `consent_storage.dfy` | the IAB setters over the store |
| `CmpJsInterface` | `cmp_js_interface.dfy` | the callback handlers; requests to the shell (end, destroy, start activity) as a list |
| `BuildHtml` | `build_html.dfy` | the page text and the injected script, line by line, and the callbacks it makes |

Operations that change the singleton or the store in place are methods on
classes. Each one is proved against a function on values (for example
`GetConfigFromManifest` against `ReadManifest`, and `InjectScript` against
`Render(ScriptLines(n))`). Lemmas then state what the source promises
about those functions.

Behaviour the model makes explicit:

- The manifest reader fills the Companies header's special-feature and special-purpose columns crosswise (`ManifestReader.CompaniesHeaderCrossed`).
- A `minShowDays` that does not parse stops the manifest reader half way. Everything assigned before it is kept, and nothing after it is assigned (`ManifestReader.BadMinShowDaysStops`).
- The JSON reader looks for `versionedFilename`/`latestFilename`, but the serializer writes `versioned`/`latest`. A rendered document therefore does not round-trip those two fields (`JsonConfigReader.GvlFileNamesLost`).
- The JSON constructor does not validate. Because `optString` never returns null, any parsed document would pass `validate` anyway (`CnvrCmp.JsonConfigAlwaysValid`).

## Model

Paths are relative to the repository root, under `app/src/main/java/com/conversantmedia/gdprcmp/`, written out in full.

| member | source | states |
|---|---|---|
| Numerals.ParseInt | app/src/main/java/com/conversantmedia/gdprcmp/utils/ManifestReader.kt:114 | `String.toInt()`: a value exactly when the text is an optional `+` or `-` and at least one digit whose signed value is in `Int` range, and then that signed value |
| Numerals.SignedDecimal | app/src/main/java/com/conversantmedia/gdprcmp/utils/ManifestReader.kt:114 | the integral texts: digits, or a `+` or `-` and at least one digit; the value is the digits' value, negated after `-` |
| Numerals.ParseIntOfToDecimal | app/src/main/java/com/conversantmedia/gdprcmp/utils/Tools.kt:23 | every `Int` printed in decimal parses back to itself |
| Numerals.SignedDecimalOfToDecimal | app/src/main/java/com/conversantmedia/gdprcmp/utils/Tools.kt:23 | the decimal text of any integer reads back as that integer |
| Numerals.Wrap32 | app/src/main/java/com/conversantmedia/gdprcmp/config/CmpConfigObject.kt:211 | `Long.toInt()` keeps the low 32 bits: congruent modulo 2^32, identity on `Int` range |
| Numerals.AbsoluteValue | app/src/main/java/com/conversantmedia/gdprcmp/config/CmpConfigObject.kt:211 | `absoluteValue` is non-negative and equals ±x for every x except `Int.MIN_VALUE`, which it returns unchanged |
| Numerals.Saturate32 | app/src/main/java/com/conversantmedia/gdprcmp/utils/JsonConfigReader.kt:48 | the `(int)` cast of an integral double: clamps to the `Int` range, identity inside it |
| Tools.RemoveSurrounding | app/src/main/java/com/conversantmedia/gdprcmp/utils/Tools.kt:19 | both the prefix and the suffix are stripped when the text has both (and is long enough for both); otherwise the text is unchanged |
| Tools.Split | app/src/main/java/com/conversantmedia/gdprcmp/utils/Tools.kt:20 | one part more than there are separators; no part contains the separator |
| Tools.JoinSplit | app/src/main/java/com/conversantmedia/gdprcmp/utils/Tools.kt:20 | joining the parts of a split gives back the text |
| Tools.SplitJoin | app/src/main/java/com/conversantmedia/gdprcmp/utils/Tools.kt:20 | splitting a join of separator-free parts gives back the parts |
| Tools.ParseAll | app/src/main/java/com/conversantmedia/gdprcmp/utils/Tools.kt:21-27 | the list is produced iff every token parses (one bad token returns null), with one value per token, in order |
| Tools.StringToIntJsonArray | app/src/main/java/com/conversantmedia/gdprcmp/utils/Tools.kt:17-31 | null or empty input gives null; otherwise it is the parse of the bracket-stripped text split at every comma |
| Tools.StringArrayToJsonArray | app/src/main/java/com/conversantmedia/gdprcmp/utils/Tools.kt:37-44 | non-null iff the input is non-empty; then exactly one element, the bracket-stripped text, which is never split |
| Tools.BracketedListRoundTrip | app/src/main/java/com/conversantmedia/gdprcmp/utils/Tools.kt:17-31 | `"[" + xs joined by "," + "]"` parses back to `xs`, in order |
| Tools.BracketsOptional | app/src/main/java/com/conversantmedia/gdprcmp/utils/Tools.kt:19 | unbracketed text parses like the same text in brackets |
| Tools.UnbalancedBracketIsNull | app/src/main/java/com/conversantmedia/gdprcmp/utils/Tools.kt:19-25 | an opening bracket without a closing one makes the result null |
| Tools.LengthIsCommasPlusOne | app/src/main/java/com/conversantmedia/gdprcmp/utils/Tools.kt:20-28 | on success the array has one element per comma, plus one |
| Tools.SpaceAfterCommaIsNull | app/src/main/java/com/conversantmedia/gdprcmp/utils/Tools.kt:20-25 | tokens are not trimmed, so `"[1, 2]"` is null |
| Tools.EmptyBracketsIsNull | app/src/main/java/com/conversantmedia/gdprcmp/utils/Tools.kt:19-25 | `"[]"` is null, not an empty array |
| Tools.ThreeElementExample | app/src/main/java/com/conversantmedia/gdprcmp/utils/Tools.kt:17-31 | `"[1,2,3]"` is `[1, 2, 3]` |
| JsonTree.Lookup | app/src/main/java/com/conversantmedia/gdprcmp/utils/JsonConfigReader.kt:34 | a value is found iff the key is present, and it is the stored one |
| JsonTree.At | app/src/main/java/com/conversantmedia/gdprcmp/utils/JsonConfigReader.kt:76-90 | a path lookup through nested objects finds nothing when its first key is absent |
| JsonTree.AtNested | app/src/main/java/com/conversantmedia/gdprcmp/utils/JsonConfigReader.kt:76-90 | a longer path descends into the object under its first key, and finds nothing when that value is not an object |
| JsonTree.FillFind | app/src/main/java/com/conversantmedia/gdprcmp/config/CmpConfigObject.kt:95-98 | after a sequence of `?.let { put }` calls, each key holds the last non-null value put under it |
| JsonTree.FillKey | app/src/main/java/com/conversantmedia/gdprcmp/config/CmpConfigObject.kt:95-98 | with distinct keys, each key holds exactly its own put (absent when null) |
| JsonTree.FindMissing | app/src/main/java/com/conversantmedia/gdprcmp/config/CmpConfigObject.kt:95-98 | a key never put is not found |
| JsonTree.FillEmpty | app/src/main/java/com/conversantmedia/gdprcmp/config/CmpConfigObject.kt:98 | the object is empty (`length() == 0`) iff every value put was null |
| JsonTree.AtEmpty | app/src/main/java/com/conversantmedia/gdprcmp/utils/JsonConfigReader.kt:76-90 | nothing lies beneath an empty object |
| JsonTree.OptStringOf | app/src/main/java/com/conversantmedia/gdprcmp/utils/JsonConfigReader.kt:42 | `optString`: "" when the key is absent, "null" for JSONObject.NULL, the string itself when one is stored |
| JsonTree.OptStringOfScalar | app/src/main/java/com/conversantmedia/gdprcmp/utils/JsonConfigReader.kt:42 | `optString` of a boolean is "true" or "false" as the value is; of a number, decimal text that reads back as it |
| JsonTree.OptBooleanOf | app/src/main/java/com/conversantmedia/gdprcmp/utils/JsonConfigReader.kt:45 | `optBoolean` is true iff the value is `true` or a string equal to "true" ignoring case |
| JsonTree.OptIntOf | app/src/main/java/com/conversantmedia/gdprcmp/utils/JsonConfigReader.kt:48 | `optInt`: 0 when absent, the value itself when it is an integer in `Int` range |
| JsonTree.OptIntOfNumber | app/src/main/java/com/conversantmedia/gdprcmp/utils/JsonConfigReader.kt:48 | `optInt` of a number within 64 bits is congruent to it modulo 2^32; beyond 64 bits it saturates |
| JsonTree.OptIntOfText | app/src/main/java/com/conversantmedia/gdprcmp/utils/JsonConfigReader.kt:48 | `optInt` of an integral string clamps its value to the `Int` range; any other non-number gives 0 |
| JsonTree.OptObject | app/src/main/java/com/conversantmedia/gdprcmp/utils/JsonConfigReader.kt:34 | `obj?.optJSONObject`: non-null iff the parent is non-null and holds an object under the key |
| JsonTree.OptArray | app/src/main/java/com/conversantmedia/gdprcmp/utils/JsonConfigReader.kt:67 | `obj?.optJSONArray`: non-null iff the parent holds an array under the key |
| JsonTree.OptString | app/src/main/java/com/conversantmedia/gdprcmp/utils/JsonConfigReader.kt:35 | `obj?.optString`: null exactly when the parent is null, never otherwise |
| JsonTree.OptBoolean | app/src/main/java/com/conversantmedia/gdprcmp/utils/JsonConfigReader.kt:45 | `obj?.optBoolean`: null exactly when the parent is null, otherwise `optBoolean` of the parent |
| JsonTree.OptInt | app/src/main/java/com/conversantmedia/gdprcmp/utils/JsonConfigReader.kt:48 | `obj?.optInt`: null exactly when the parent is null, otherwise `optInt` of the parent |
| SharedPreferences.GetString | app/src/main/java/com/conversantmedia/gdprcmp/config/CmpConfigObject.kt:53-54 | `getString(key, default)`: the default when absent, the stored string otherwise |
| SharedPreferences.Preferences.constructor | app/src/main/java/com/conversantmedia/gdprcmp/utils/ConsentStorage.kt:21 | a fresh store is empty |
| CmpConfigObject.AdvertisingId | app/src/main/java/com/conversantmedia/gdprcmp/utils/AdvertisingId.kt:29-46 | the fetched advertising id, or the all-zero id when the lookup caught an `IOException` or a `CnvrCmpException` |
| CmpConfigObject.IdAsWrittenCanBeNegative | app/src/main/java/com/conversantmedia/gdprcmp/config/CmpConfigObject.kt:211 | at millis 1 720 134 402 048 the as-written id is `Int.MIN_VALUE` |
| CmpConfigObject.ConfigId | app/src/main/java/com/conversantmedia/gdprcmp/config/CmpConfigObject.kt:211 | the intended id is never negative and agrees with the as-written id wherever that one is non-negative |
| CmpConfigObject.Initial | app/src/main/java/com/conversantmedia/gdprcmp/config/CmpConfigObject.kt:204-319 | the initial record: the given id, `bannerLayout` true, service specific, in-app device id null with "" TC string and stored version, and every other field and nested section null |
| CmpConfigObject.WithRuntime | app/src/main/java/com/conversantmedia/gdprcmp/config/CmpConfigObject.kt:38-55 | the refresh before rendering changes only the in-app part: the device id, and the stored TC string and config version ("" when absent) |
| CmpConfigObject.CmpConfig.constructor | app/src/main/java/com/conversantmedia/gdprcmp/config/CmpConfigObject.kt:204-219 | the singleton starts as `Initial` with a non-negative id, equal to the as-written `abs(millis.toInt())` whenever that is non-negative |
| CmpConfigObject.CmpConfig.ApplySharedPreferences | app/src/main/java/com/conversantmedia/gdprcmp/config/CmpConfigObject.kt:51-55 | the TC string and stored version are read from the store, nothing else changes |
| CmpConfigObject.CmpConfig.ApplyDeviceId | app/src/main/java/com/conversantmedia/gdprcmp/config/CmpConfigObject.kt:38-43 | the device id is set, nothing else changes |
| CmpConfigObject.CmpConfig.GetConfigString | app/src/main/java/com/conversantmedia/gdprcmp/config/CmpConfigObject.kt:66-198 | the record is refreshed, then rendered; the result is the render of the refreshed record |
| CmpConfigObject.PutField | app/src/main/java/com/conversantmedia/gdprcmp/config/CmpConfigObject.kt:95 | `value?.let { put }`: the object is the fill of the puts so far plus this one |
| CmpConfigObject.PutChild | app/src/main/java/com/conversantmedia/gdprcmp/config/CmpConfigObject.kt:98 | `if (child.length() > 0) put`: an empty child is not attached |
| CmpConfigObject.BuildGvlJson | app/src/main/java/com/conversantmedia/gdprcmp/config/CmpConfigObject.kt:95-97 | the GVL object is the fill of its three puts |
| CmpConfigObject.BuildCustomUIJson | app/src/main/java/com/conversantmedia/gdprcmp/config/CmpConfigObject.kt:101-105 | the custom-UI object is the fill of its five puts |
| CmpConfigObject.BuildInAppJson | app/src/main/java/com/conversantmedia/gdprcmp/config/CmpConfigObject.kt:109-111 | the in-app object, with the TC string under `tcstring` |
| CmpConfigObject.BuildLegalBasesJson | app/src/main/java/com/conversantmedia/gdprcmp/config/CmpConfigObject.kt:115-120 | the legal-bases object, with the `purpose` child attached only when non-empty |
| CmpConfigObject.BuildLandingJson | app/src/main/java/com/conversantmedia/gdprcmp/config/CmpConfigObject.kt:124-130 | the landing object, with its `body` and `seeMoreLink` children attached when non-empty (lines 162-163) |
| CmpConfigObject.BuildHeaderJson | app/src/main/java/com/conversantmedia/gdprcmp/config/CmpConfigObject.kt:131-135 | a header object: the fill of its five puts |
| CmpConfigObject.BuildCompaniesJson | app/src/main/java/com/conversantmedia/gdprcmp/config/CmpConfigObject.kt:136-137 | the companies object, with the header attached when non-empty (line 167) |
| CmpConfigObject.BuildLabelJson | app/src/main/java/com/conversantmedia/gdprcmp/config/CmpConfigObject.kt:143-146 | the purposes label object |
| CmpConfigObject.BuildLegalDescriptionJson | app/src/main/java/com/conversantmedia/gdprcmp/config/CmpConfigObject.kt:147-148 | the legal-description object |
| CmpConfigObject.BuildCompanyListJson | app/src/main/java/com/conversantmedia/gdprcmp/config/CmpConfigObject.kt:149-151 | the company-list object |
| CmpConfigObject.BuildPurposesJson | app/src/main/java/com/conversantmedia/gdprcmp/config/CmpConfigObject.kt:152 | the purposes object: tab title, then its four children attached when non-empty, in the source's order (lines 168-171) |
| CmpConfigObject.BuildTabsJson | app/src/main/java/com/conversantmedia/gdprcmp/config/CmpConfigObject.kt:172-173 | the tabs object: companies, then purposes, each when non-empty |
| CmpConfigObject.BuildButtonsJson | app/src/main/java/com/conversantmedia/gdprcmp/config/CmpConfigObject.kt:153-155 | the buttons object |
| CmpConfigObject.BuildFooterJson | app/src/main/java/com/conversantmedia/gdprcmp/config/CmpConfigObject.kt:156-158 | the footer object |
| CmpConfigObject.BuildReviewJson | app/src/main/java/com/conversantmedia/gdprcmp/config/CmpConfigObject.kt:159-178 | the review object: intro body, then tabs, buttons and footer when non-empty |
| CmpConfigObject.BuildTextJson | app/src/main/java/com/conversantmedia/gdprcmp/config/CmpConfigObject.kt:164-179 | the text object: landing, then review, each when non-empty |
| CmpConfigObject.BuildConfigJson | app/src/main/java/com/conversantmedia/gdprcmp/config/CmpConfigObject.kt:72-197 | the whole document equals `Render` of the record |
| CmpConfigObject.AssembleConfigJson | app/src/main/java/com/conversantmedia/gdprcmp/config/CmpConfigObject.kt:98-195 | the root object is the fill of the 19 root puts, in source order |
| CmpConfigObject.ConfigPutsLayout | app/src/main/java/com/conversantmedia/gdprcmp/config/CmpConfigObject.kt:98-195 | the root puts are the five sections first, then the fourteen top-level values, each at its fixed position |
| CmpConfigObject.PutSections | app/src/main/java/com/conversantmedia/gdprcmp/config/CmpConfigObject.kt:98-179 | the five sections are attached in order, each only when non-empty |
| CmpConfigObject.PutTopLevelValues | app/src/main/java/com/conversantmedia/gdprcmp/config/CmpConfigObject.kt:182-195 | `bannerLayout` is always put, and every other top-level value is put when it is non-null |
| ConfigProperties.GvlKeys | app/src/main/java/com/conversantmedia/gdprcmp/config/CmpConfigObject.kt:95-98 | each GVL field sits under its key; the object is empty iff every field is null |
| ConfigProperties.CustomUIKeys | app/src/main/java/com/conversantmedia/gdprcmp/config/CmpConfigObject.kt:101-106 | each custom-UI field sits under its key; empty iff all null |
| ConfigProperties.InAppKeys | app/src/main/java/com/conversantmedia/gdprcmp/config/CmpConfigObject.kt:109-112 | device id, stored version and TC string sit under `deviceId`, `storedVersion` and `tcstring`; empty iff all null |
| ConfigProperties.LegalBasesPurposeKeys | app/src/main/java/com/conversantmedia/gdprcmp/config/CmpConfigObject.kt:116-117 | purpose consent / legitimate interest sit under `consent` / `legitimateInterest` |
| ConfigProperties.LegalBasesKeys | app/src/main/java/com/conversantmedia/gdprcmp/config/CmpConfigObject.kt:115-121 | each legal-bases array sits under its key, with `purpose` present iff its child is non-empty |
| ConfigProperties.LandingBodyKeys | app/src/main/java/com/conversantmedia/gdprcmp/config/CmpConfigObject.kt:124-125 | `p1` and `p2` under their keys; empty iff both null |
| ConfigProperties.SeeMoreKeys | app/src/main/java/com/conversantmedia/gdprcmp/config/CmpConfigObject.kt:128-129 | `seeMore` and `seeLess` under their keys; empty iff both null |
| ConfigProperties.LandingKeys | app/src/main/java/com/conversantmedia/gdprcmp/config/CmpConfigObject.kt:126-163 | landing fields and children under their keys |
| ConfigProperties.HeaderKeys | app/src/main/java/com/conversantmedia/gdprcmp/config/CmpConfigObject.kt:131-135 | the five header columns under their keys; empty iff all null |
| ConfigProperties.CompaniesKeys | app/src/main/java/com/conversantmedia/gdprcmp/config/CmpConfigObject.kt:136-167 | privacy-policy link, tab title and header under their keys |
| ConfigProperties.LabelKeys | app/src/main/java/com/conversantmedia/gdprcmp/config/CmpConfigObject.kt:143-146 | the four labels under their keys; empty iff all null |
| ConfigProperties.LegalDescriptionKeys | app/src/main/java/com/conversantmedia/gdprcmp/config/CmpConfigObject.kt:147-148 | `hide` and `show` under their keys |
| ConfigProperties.CompanyListKeys | app/src/main/java/com/conversantmedia/gdprcmp/config/CmpConfigObject.kt:149-151 | `hide`, `show` and `no` under their keys |
| ConfigProperties.PurposesKeys | app/src/main/java/com/conversantmedia/gdprcmp/config/CmpConfigObject.kt:152-171 | tab title and the four children under their keys |
| ConfigProperties.TabsKeys | app/src/main/java/com/conversantmedia/gdprcmp/config/CmpConfigObject.kt:172-173 | `companies` and `purposes` under their keys, each present iff non-empty |
| ConfigProperties.ButtonsKeys | app/src/main/java/com/conversantmedia/gdprcmp/config/CmpConfigObject.kt:153-155 | `allow`, `deny`, `optOut` under their keys |
| ConfigProperties.FooterKeys | app/src/main/java/com/conversantmedia/gdprcmp/config/CmpConfigObject.kt:156-158 | `allowAll`, `denyAll`, `cta` under their keys |
| ConfigProperties.ReviewKeys | app/src/main/java/com/conversantmedia/gdprcmp/config/CmpConfigObject.kt:159-178 | intro body and the three children under their keys |
| ConfigProperties.TextKeys | app/src/main/java/com/conversantmedia/gdprcmp/config/CmpConfigObject.kt:164-179 | `landing` and `review` under their keys, each present iff non-empty |
| ConfigProperties.RootKeysDistinct | app/src/main/java/com/conversantmedia/gdprcmp/config/CmpConfigObject.kt:98-195 | the root object never puts the same key twice |
| ConfigProperties.ConfigPutsListed | app/src/main/java/com/conversantmedia/gdprcmp/config/CmpConfigObject.kt:98-195 | the root puts have distinct keys |
| ConfigProperties.ConfigSectionKeys | app/src/main/java/com/conversantmedia/gdprcmp/config/CmpConfigObject.kt:98-179 | each section sits under its root key, absent when empty |
| ConfigProperties.ConfigFlagKeys | app/src/main/java/com/conversantmedia/gdprcmp/config/CmpConfigObject.kt:182-188 | `bannerLayout` always present; the next six values under their keys when non-null |
| ConfigProperties.ConfigValueKeys | app/src/main/java/com/conversantmedia/gdprcmp/config/CmpConfigObject.kt:189-195 | language under `lang`, and the remaining values under their keys when non-null |
| ConfigProperties.LegalBasesEmpty | app/src/main/java/com/conversantmedia/gdprcmp/config/CmpConfigObject.kt:115-121 | the legal-bases object is dropped iff every array is null |
| ConfigProperties.LandingEmpty | app/src/main/java/com/conversantmedia/gdprcmp/config/CmpConfigObject.kt:124-164 | the landing object is dropped iff every landing field is null |
| ConfigProperties.CompaniesEmpty | app/src/main/java/com/conversantmedia/gdprcmp/config/CmpConfigObject.kt:131-172 | the companies object is dropped iff every field beneath it is null |
| ConfigProperties.PurposesEmpty | app/src/main/java/com/conversantmedia/gdprcmp/config/CmpConfigObject.kt:138-173 | the purposes object is dropped iff every field beneath it is null |
| ConfigProperties.TabsEmpty | app/src/main/java/com/conversantmedia/gdprcmp/config/CmpConfigObject.kt:172-174 | the tabs object is dropped iff both tabs are entirely null |
| ConfigProperties.ReviewEmpty | app/src/main/java/com/conversantmedia/gdprcmp/config/CmpConfigObject.kt:131-178 | the review object is dropped iff every review field is null |
| ConfigProperties.TextEmpty | app/src/main/java/com/conversantmedia/gdprcmp/config/CmpConfigObject.kt:124-179 | the text object is dropped iff every text field is null |
| ConfigProperties.RuntimeIdempotent | app/src/main/java/com/conversantmedia/gdprcmp/config/CmpConfigObject.kt:66-70 | refreshing twice with the same store and id is refreshing once |
| ConfigProperties.RuntimeForgetsInApp | app/src/main/java/com/conversantmedia/gdprcmp/config/CmpConfigObject.kt:38-55 | the refresh overwrites every in-app field, so their earlier values do not matter |
| ConfigProperties.RepeatedRenderAgrees | app/src/main/java/com/conversantmedia/gdprcmp/config/CmpConfigObject.kt:66-198 | two `getConfigString` calls in a row with the same inputs return the same document |
| JsonConfigReader.ReadGvl | app/src/main/java/com/conversantmedia/gdprcmp/utils/JsonConfigReader.kt:34-37 | no GVL object gives all-null GVL; a present object gives `baseUrl`, `latest` and `versioned` as the `optString` of the keys `baseUrl`, `latestFilename` and `versionedFilename` |
| JsonConfigReader.ReadCustomUI | app/src/main/java/com/conversantmedia/gdprcmp/utils/JsonConfigReader.kt:56-61 | no custom-UI object gives all null; a present one gives non-null strings |
| JsonConfigReader.ReadLegalBases | app/src/main/java/com/conversantmedia/gdprcmp/utils/JsonConfigReader.kt:66-72 | no object gives all null; `feature` is non-null iff an array is stored under it |
| JsonConfigReader.ReadLanding | app/src/main/java/com/conversantmedia/gdprcmp/utils/JsonConfigReader.kt:77-98 | no landing object gives all null; a present one gives non-null strings |
| JsonConfigReader.ReadHeader | app/src/main/java/com/conversantmedia/gdprcmp/utils/JsonConfigReader.kt:99-103 | no header object gives all null; a present one gives non-null strings |
| JsonConfigReader.ReadCompanies | app/src/main/java/com/conversantmedia/gdprcmp/utils/JsonConfigReader.kt:82-105 | no companies object gives all null |
| JsonConfigReader.ReadPurposes | app/src/main/java/com/conversantmedia/gdprcmp/utils/JsonConfigReader.kt:84-120 | no purposes object gives all null |
| JsonConfigReader.ReadTabs | app/src/main/java/com/conversantmedia/gdprcmp/utils/JsonConfigReader.kt:81-120 | no tabs object gives all null |
| JsonConfigReader.ReadReview | app/src/main/java/com/conversantmedia/gdprcmp/utils/JsonConfigReader.kt:80-127 | no review object gives all null |
| JsonConfigReader.ReadText | app/src/main/java/com/conversantmedia/gdprcmp/utils/JsonConfigReader.kt:76-127 | no text object gives all null |
| JsonConfigReader.ReadTopLevel | app/src/main/java/com/conversantmedia/gdprcmp/utils/JsonConfigReader.kt:42-50 | only the nine first-tier values change, all non-null; `lang`, `gdprAppliesGlobally` and `minShowDays` read with `optString`/`optBoolean`/`optInt` |
| JsonConfigReader.ReadJson | app/src/main/java/com/conversantmedia/gdprcmp/utils/JsonConfigReader.kt:27-127 | banner layout, id, service-specific, onGVL, vendors and in-app are kept; every first-tier value it reads is non-null |
| JsonConfigReader.BuildConfigFromJson | app/src/main/java/com/conversantmedia/gdprcmp/utils/JsonConfigReader.kt:27-133 | a parse failure throws "JSON config is an invalid CMP config: …" and leaves the record; otherwise the record becomes `ReadJson` |
| JsonConfigReader.ReadGvlInto | app/src/main/java/com/conversantmedia/gdprcmp/utils/JsonConfigReader.kt:34-37 | only the GVL part changes |
| JsonConfigReader.ReadTopLevelInto | app/src/main/java/com/conversantmedia/gdprcmp/utils/JsonConfigReader.kt:42-50 | only the first-tier values change |
| JsonConfigReader.ReadCustomUIInto | app/src/main/java/com/conversantmedia/gdprcmp/utils/JsonConfigReader.kt:56-61 | only the custom-UI part changes |
| JsonConfigReader.ReadLegalBasesInto | app/src/main/java/com/conversantmedia/gdprcmp/utils/JsonConfigReader.kt:66-72 | only the legal-bases part changes |
| JsonConfigReader.ReadTextInto | app/src/main/java/com/conversantmedia/gdprcmp/utils/JsonConfigReader.kt:76-127 | only the text part changes |
| JsonConfigReader.ReadReplacesNotMerges | app/src/main/java/com/conversantmedia/gdprcmp/utils/JsonConfigReader.kt:34-127 | every field it reads is overwritten, so its earlier value does not matter |
| JsonConfigReader.ReadIdempotent | app/src/main/java/com/conversantmedia/gdprcmp/utils/JsonConfigReader.kt:27-127 | reading the same document twice is reading it once |
| JsonConfigReader.MissingSectionsAreNull | app/src/main/java/com/conversantmedia/gdprcmp/utils/JsonConfigReader.kt:34-90 | a document without GVL, customUI, legalBases and text nulls all four sections |
| JsonConfigReader.HeaderRoundTrip | app/src/main/java/com/conversantmedia/gdprcmp/utils/JsonConfigReader.kt:99-103 | reading a rendered header keeps every non-null column (nulls read back as "") |
| JsonConfigReader.LandingRoundTrip | app/src/main/java/com/conversantmedia/gdprcmp/utils/JsonConfigReader.kt:92-98 | reading a rendered landing object keeps every non-null field |
| JsonConfigReader.CompaniesRoundTrip | app/src/main/java/com/conversantmedia/gdprcmp/utils/JsonConfigReader.kt:99-105 | reading a rendered companies tab keeps every non-null field |
| JsonConfigReader.PurposesRoundTrip | app/src/main/java/com/conversantmedia/gdprcmp/utils/JsonConfigReader.kt:106-120 | reading a rendered purposes tab keeps every non-null field |
| JsonConfigReader.LabelReadBack | app/src/main/java/com/conversantmedia/gdprcmp/utils/JsonConfigReader.kt:111-114 | a rendered purposes label object reads back every non-null label |
| JsonConfigReader.LegalDescriptionReadBack | app/src/main/java/com/conversantmedia/gdprcmp/utils/JsonConfigReader.kt:115-116 | a rendered legal-description object reads back `hide` and `show` when non-null |
| JsonConfigReader.CompanyListReadBack | app/src/main/java/com/conversantmedia/gdprcmp/utils/JsonConfigReader.kt:117-119 | a rendered company-list object reads back `hide`, `show` and `no` when non-null |
| JsonConfigReader.TabsRoundTrip | app/src/main/java/com/conversantmedia/gdprcmp/utils/JsonConfigReader.kt:81-120 | reading rendered tabs keeps every non-null field |
| JsonConfigReader.ReviewRoundTrip | app/src/main/java/com/conversantmedia/gdprcmp/utils/JsonConfigReader.kt:80-127 | reading a rendered review keeps every non-null field |
| JsonConfigReader.ButtonsReadBack | app/src/main/java/com/conversantmedia/gdprcmp/utils/JsonConfigReader.kt:121-123 | a rendered buttons object reads back every non-null button text |
| JsonConfigReader.FooterReadBack | app/src/main/java/com/conversantmedia/gdprcmp/utils/JsonConfigReader.kt:124-126 | a rendered footer object reads back every non-null footer text |
| JsonConfigReader.TextRoundTrip | app/src/main/java/com/conversantmedia/gdprcmp/utils/JsonConfigReader.kt:76-127 | reading a rendered record keeps every non-null text field, and all-null text stays null |
| JsonConfigReader.CustomUIRoundTrip | app/src/main/java/com/conversantmedia/gdprcmp/utils/JsonConfigReader.kt:56-61 | reading a rendered record keeps every non-null custom-UI field |
| JsonConfigReader.CustomUIReadBack | app/src/main/java/com/conversantmedia/gdprcmp/utils/JsonConfigReader.kt:56-61 | reading a rendered custom-UI object keeps every non-null field, and an all-null one stays all null |
| JsonConfigReader.LegalBasesRoundTrip | app/src/main/java/com/conversantmedia/gdprcmp/utils/JsonConfigReader.kt:66-72 | the legal bases read back exactly |
| JsonConfigReader.LegalBasesReadBack | app/src/main/java/com/conversantmedia/gdprcmp/utils/JsonConfigReader.kt:66-72 | a rendered legal-bases object reads back exactly, nulls included |
| JsonConfigReader.GvlFileNamesLost | app/src/main/java/com/conversantmedia/gdprcmp/utils/JsonConfigReader.kt:36-37 | a rendered GVL reads back with both file names "", because the keys differ from the serializer's; the base URL is kept |
| JsonConfigReader.GvlReadBack | app/src/main/java/com/conversantmedia/gdprcmp/utils/JsonConfigReader.kt:34-37 | a rendered GVL object reads back with both file names "" unless it was all null; the base URL is kept |
| JsonConfigReader.GvlLacksFileNameKeys | app/src/main/java/com/conversantmedia/gdprcmp/config/CmpConfigObject.kt:95-96 | the serializer never writes `latestFilename` or `versionedFilename` |
| JsonConfigReader.TopLevelStringsRoundTrip | app/src/main/java/com/conversantmedia/gdprcmp/utils/JsonConfigReader.kt:42-50 | the first-tier strings read back from a rendered record |
| JsonConfigReader.TopLevelFlagsRoundTrip | app/src/main/java/com/conversantmedia/gdprcmp/utils/JsonConfigReader.kt:45-48 | `gdprAppliesGlobally` and `minShowDays` read back from a rendered record |
| JsonConfigReader.RenderThenRead | app/src/main/java/com/conversantmedia/gdprcmp/utils/JsonConfigReader.kt:27-127 | serialize then read: every section except the GVL file names is kept |
| ManifestReader.GetMetaData | app/src/main/java/com/conversantmedia/gdprcmp/utils/ManifestReader.kt:28-31 | null iff the key is absent, otherwise its text |
| ManifestReader.MetaDataText | app/src/main/java/com/conversantmedia/gdprcmp/utils/ManifestReader.kt:42 | without the safe call an absent key reads "null", a present one its text |
| ManifestReader.GetUri | app/src/main/java/com/conversantmedia/gdprcmp/utils/ManifestReader.kt:41-44 | the text is kept iff it parses as an absolute URI |
| ManifestReader.GetBoolean | app/src/main/java/com/conversantmedia/gdprcmp/utils/ManifestReader.kt:111 | null iff absent; true iff the text is "true" ignoring case |
| ManifestReader.GetIntList | app/src/main/java/com/conversantmedia/gdprcmp/utils/ManifestReader.kt:117 | null when absent; otherwise non-null exactly when `stringToIntJSONArray` of the text is, holding its numbers in order |
| ManifestReader.ManifestGvl | app/src/main/java/com/conversantmedia/gdprcmp/utils/ManifestReader.kt:54-56 | each GVL URL is the text under its key when that is an absolute URI, else null |
| ManifestReader.ManifestCustomUI | app/src/main/java/com/conversantmedia/gdprcmp/utils/ManifestReader.kt:58-62 | each custom-UI value is the text under its key, null when absent |
| ManifestReader.ManifestLegalBases | app/src/main/java/com/conversantmedia/gdprcmp/utils/ManifestReader.kt:64-68 | each legal-bases list is the integer list read from its key |
| ManifestReader.ManifestLanding | app/src/main/java/com/conversantmedia/gdprcmp/utils/ManifestReader.kt:70-76 | each landing text is the metadata under its key, null when absent |
| ManifestReader.ManifestCompanies | app/src/main/java/com/conversantmedia/gdprcmp/utils/ManifestReader.kt:78-84 | each companies text is the metadata under its key, the two special headers crosswise; the privacy-policy link is kept only when absolute |
| ManifestReader.ManifestFirstTier | app/src/main/java/com/conversantmedia/gdprcmp/utils/ManifestReader.kt:108-113 | branding image and CSS override as absolute URIs, country code, language and legal name as texts, `gdprAppliesGlobally` as a boolean, each from its key; nothing else changes |
| ManifestReader.ManifestPurposes | app/src/main/java/com/conversantmedia/gdprcmp/utils/ManifestReader.kt:85-98 | each purposes header, label, legal-description and company-list text holds the metadata under its own key (null when absent); the tab title is never set from the manifest |
| ManifestReader.ManifestReview | app/src/main/java/com/conversantmedia/gdprcmp/utils/ManifestReader.kt:78-105 | the companies and purposes tabs as read; each button, footer and intro text holds the metadata under its key; the purposes tab title is kept |
| ManifestReader.MinShowDays | app/src/main/java/com/conversantmedia/gdprcmp/utils/ManifestReader.kt:114 | null when absent; NumberFormatException exactly when the text is not an `Int` |
| ManifestReader.ManifestRest | app/src/main/java/com/conversantmedia/gdprcmp/utils/ManifestReader.kt:115-118 | `onGVL`, `policyUrl`, `vendors` and `version` from their keys; nothing else changes |
| ManifestReader.ManifestTail | app/src/main/java/com/conversantmedia/gdprcmp/utils/ManifestReader.kt:114-118 | a bad `minShowDays` throws and assigns nothing more; otherwise `minShowDays` is the parsed value and `onGVL`, `policyUrl`, `vendors` and `version` are read from their keys, nothing else changing |
| ManifestReader.ReadManifest | app/src/main/java/com/conversantmedia/gdprcmp/utils/ManifestReader.kt:53-119 | every section before `minShowDays` is read from its keys whatever happens later; it fails iff `minShowDays` does not parse, and then the later fields are untouched, otherwise they too are read from their keys; banner layout, id, service-specific, in-app and purposes tab title are kept |
| ManifestReader.GetConfigFromManifest | app/src/main/java/com/conversantmedia/gdprcmp/utils/ManifestReader.kt:53-119 | the singleton and outcome are those of `ReadManifest` |
| ManifestReader.ReadTailFromManifest | app/src/main/java/com/conversantmedia/gdprcmp/utils/ManifestReader.kt:114-118 | from `minShowDays` on, as `ManifestTail` |
| ManifestReader.ReadRestFromManifest | app/src/main/java/com/conversantmedia/gdprcmp/utils/ManifestReader.kt:115-118 | the four assignments after `minShowDays` |
| ManifestReader.ReadGvlFromManifest | app/src/main/java/com/conversantmedia/gdprcmp/utils/ManifestReader.kt:54-56 | only the GVL part changes, to `ManifestGvl` |
| ManifestReader.ReadCustomUIFromManifest | app/src/main/java/com/conversantmedia/gdprcmp/utils/ManifestReader.kt:58-62 | only the custom-UI part changes, to `ManifestCustomUI` |
| ManifestReader.ReadLegalBasesFromManifest | app/src/main/java/com/conversantmedia/gdprcmp/utils/ManifestReader.kt:64-68 | only the legal-bases part changes, to `ManifestLegalBases` |
| ManifestReader.ReadTextFromManifest | app/src/main/java/com/conversantmedia/gdprcmp/utils/ManifestReader.kt:70-105 | only the text part changes |
| ManifestReader.ReadFirstTierFromManifest | app/src/main/java/com/conversantmedia/gdprcmp/utils/ManifestReader.kt:108-113 | the first-tier values before `minShowDays` |
| ManifestReader.UrisAreAbsolute | app/src/main/java/com/conversantmedia/gdprcmp/utils/ManifestReader.kt:41-44 | every URI-typed field the manifest fills (GVL URLs, privacy-policy link, branding image, CSS override, and the policy URL when reading succeeds) is absolute or null, and holds its key's text whenever that is absolute |
| ManifestReader.MissingUriIsNull | app/src/main/java/com/conversantmedia/gdprcmp/utils/ManifestReader.kt:42-43 | an absent URI key gives null when "null" is not absolute |
| ManifestReader.CompaniesHeaderCrossed | app/src/main/java/com/conversantmedia/gdprcmp/utils/ManifestReader.kt:81-82 | the Companies special-purpose column takes the special-feature key and vice versa |
| ManifestReader.CrossedHeaderExample | app/src/main/java/com/conversantmedia/gdprcmp/utils/ManifestReader.kt:81-82 | given only the special-feature key, only the special-purpose column is filled |
| ManifestReader.EmptyManifestIsNull | app/src/main/java/com/conversantmedia/gdprcmp/utils/ManifestReader.kt:53-119 | an empty manifest succeeds and leaves custom UI, legal bases, landing text, country code, version, language, the flags, `minShowDays` and vendors null |
| ManifestReader.BadMinShowDaysStops | app/src/main/java/com/conversantmedia/gdprcmp/utils/ManifestReader.kt:114-118 | "7 days" throws NumberFormatException, and the version that follows is left as it was |
| ManifestReader.SpacedVendorListIsNull | app/src/main/java/com/conversantmedia/gdprcmp/utils/ManifestReader.kt:117 | a vendor list `"[1, 2]"` is dropped whole |
| ManifestReader.PreventBackOnlyWhenTrue | app/src/main/java/com/conversantmedia/gdprcmp/utils/ManifestReader.kt:128-130 | `preventBack` iff the key is present and reads "true" ignoring case |
| CnvrCmp.Validate | app/src/main/java/com/conversantmedia/gdprcmp/CnvrCmp.kt:99-102 | passes iff country code and version are non-null; the country code is reported first |
| CnvrCmp.InitFromManifest | app/src/main/java/com/conversantmedia/gdprcmp/CnvrCmp.kt:40-46 | the manifest read, then `validate("manifest")` on a successful read; it succeeds exactly when `minShowDays` parses and the country-code and version keys are present; a reader exception is propagated |
| CnvrCmp.InitFromJson | app/src/main/java/com/conversantmedia/gdprcmp/CnvrCmp.kt:59-65 | a parse failure throws the invalid-config exception with the record unchanged; otherwise the JSON read, with no validation |
| CnvrCmp.EditedConsents | app/src/main/java/com/conversantmedia/gdprcmp/CnvrCmp.kt:72-74 | TC string null and GDPR applies globally; nothing else changes |
| CnvrCmp.NewFromManifest | app/src/main/java/com/conversantmedia/gdprcmp/CnvrCmp.kt:40-46 | the singleton and outcome are those of `InitFromManifest` |
| CnvrCmp.ValidateConfig | app/src/main/java/com/conversantmedia/gdprcmp/CnvrCmp.kt:99-102 | the outcome is `Validate` of the singleton |
| CnvrCmp.NewFromJson | app/src/main/java/com/conversantmedia/gdprcmp/CnvrCmp.kt:59-65 | the singleton and outcome are those of `InitFromJson` |
| CnvrCmp.EditConsents | app/src/main/java/com/conversantmedia/gdprcmp/CnvrCmp.kt:72-74 | the singleton becomes `EditedConsents` of itself |
| CnvrCmp.JsonConfigAlwaysValid | app/src/main/java/com/conversantmedia/gdprcmp/utils/JsonConfigReader.kt:43-50 | any parsed document would pass `validate` |
| CnvrCmp.JsonInitSkipsRequiredFields | app/src/main/java/com/conversantmedia/gdprcmp/CnvrCmp.kt:59-65 | `{}` is accepted, with country code and version "" |
| CnvrCmp.EmptyManifestRejected | app/src/main/java/com/conversantmedia/gdprcmp/CnvrCmp.kt:100 | an empty manifest is rejected for its country code |
| CnvrCmp.EditThenRefresh | app/src/main/java/com/conversantmedia/gdprcmp/CnvrCmp.kt:72-74 | after a reset the next render takes the TC string from the store again; it differs from an unreset render only in `gdprAppliesGlobally` |
| CnvrCmp.EditIdempotent | app/src/main/java/com/conversantmedia/gdprcmp/CnvrCmp.kt:72-74 | resetting twice is resetting once |
| ConsentStorage.RestrictionKey | app/src/main/java/com/conversantmedia/gdprcmp/utils/ConsentStorage.kt:220-222 | the key is `IABTCF_PublisherRestrictions` followed by the purpose id |
| ConsentStorage.Stored | app/src/main/java/com/conversantmedia/gdprcmp/utils/ConsentStorage.kt:30-37 | a string or int is written under the key; null writes nothing |
| ConsentStorage.ConsentStorage.constructor | app/src/main/java/com/conversantmedia/gdprcmp/utils/ConsentStorage.kt:19-21 | the storage wraps the given store |
| ConsentStorage.ConsentStorage.SetConsentValue | app/src/main/java/com/conversantmedia/gdprcmp/utils/ConsentStorage.kt:30-37 | the store becomes `Stored` of itself |
| ConsentStorage.ConsentStorage.SetCmpSdkId | app/src/main/java/com/conversantmedia/gdprcmp/utils/ConsentStorage.kt:49-51 | `IABTCF_CmpSdkID` holds the id |
| ConsentStorage.ConsentStorage.SetCmpSdkVersion | app/src/main/java/com/conversantmedia/gdprcmp/utils/ConsentStorage.kt:59-61 | `IABTCF_CmpSdkVersion` holds the text |
| ConsentStorage.ConsentStorage.SetPolicyVersion | app/src/main/java/com/conversantmedia/gdprcmp/utils/ConsentStorage.kt:70-72 | `IABTCF_PolicyVersion` holds the version |
| ConsentStorage.ConsentStorage.SetGdprApplies | app/src/main/java/com/conversantmedia/gdprcmp/utils/ConsentStorage.kt:94-96 | `IABTCF_gdprApplies` holds the value; null, the default argument, leaves the store unchanged |
| ConsentStorage.ConsentStorage.SetIabPublisherCc | app/src/main/java/com/conversantmedia/gdprcmp/utils/ConsentStorage.kt:105-107 | `IABTCF_PublisherCC` holds the code, which defaults to "AA" |
| ConsentStorage.ConsentStorage.SetPurposeOneTreatment | app/src/main/java/com/conversantmedia/gdprcmp/utils/ConsentStorage.kt:119-121 | `IABTCF_PurposeOneTreatment` holds the value, which defaults to 0 |
| ConsentStorage.ConsentStorage.SetUseNonStandardStacks | app/src/main/java/com/conversantmedia/gdprcmp/utils/ConsentStorage.kt:131-133 | `IABTCF_UseNonStandardStacks` holds the value |
| ConsentStorage.ConsentStorage.SetTcString | app/src/main/java/com/conversantmedia/gdprcmp/utils/ConsentStorage.kt:141-143 | `IABTCF_TCString` holds the string |
| ConsentStorage.ConsentStorage.SetVendorConsents | app/src/main/java/com/conversantmedia/gdprcmp/utils/ConsentStorage.kt:154-156 | `IABTCF_VendorConsents` holds the bits |
| ConsentStorage.ConsentStorage.SetVendorLegitimateInterests | app/src/main/java/com/conversantmedia/gdprcmp/utils/ConsentStorage.kt:167-169 | `IABTCF_VendorLegitimateInterests` holds the bits |
| ConsentStorage.ConsentStorage.SetPurposeConsents | app/src/main/java/com/conversantmedia/gdprcmp/utils/ConsentStorage.kt:180-182 | `IABTCF_PurposeConsents` holds the bits |
| ConsentStorage.ConsentStorage.SetPurposeLegitimateInterests | app/src/main/java/com/conversantmedia/gdprcmp/utils/ConsentStorage.kt:193-195 | `IABTCF_PurposeLegitimateInterests` holds the bits |
| ConsentStorage.ConsentStorage.SetSpecialFeaturesOptIns | app/src/main/java/com/conversantmedia/gdprcmp/utils/ConsentStorage.kt:206-208 | `IABTCF_SpecialFeaturesOptIns` holds the bits |
| ConsentStorage.ConsentStorage.SetPublisherRestrictions | app/src/main/java/com/conversantmedia/gdprcmp/utils/ConsentStorage.kt:220-222 | the purpose's restriction key holds the restrictions |
| ConsentStorage.ConsentStorage.SetPublisherConsent | app/src/main/java/com/conversantmedia/gdprcmp/utils/ConsentStorage.kt:234-236 | `IABTCF_PublisherConsent` holds the bits |
| ConsentStorage.ConsentStorage.SetPublisherLegitimateInterests | app/src/main/java/com/conversantmedia/gdprcmp/utils/ConsentStorage.kt:248-250 | `IABTCF_PublisherLegitimateInterests` holds the bits |
| ConsentStorage.ConsentStorage.SetPublisherCustomPurposesConsents | app/src/main/java/com/conversantmedia/gdprcmp/utils/ConsentStorage.kt:261-263 | `IABTCF_PublisherCustomPurposesConsents` holds the bits |
| ConsentStorage.ConsentStorage.SetPublisherCustomPurposesLegitimateInterests | app/src/main/java/com/conversantmedia/gdprcmp/utils/ConsentStorage.kt:275-277 | `IABTCF_PublisherCustomPurposesLegitimateInterests` holds the bits |
| ConsentStorage.ConsentStorage.SetConfigVersion | app/src/main/java/com/conversantmedia/gdprcmp/utils/ConsentStorage.kt:288-290 | `CNVR_PublisherConfigVersion` holds the version |
| ConsentStorage.LastWriteWins | app/src/main/java/com/conversantmedia/gdprcmp/utils/ConsentStorage.kt:30-37 | a second write to a key replaces the first |
| ConsentStorage.ReplayIdempotent | app/src/main/java/com/conversantmedia/gdprcmp/utils/ConsentStorage.kt:30-37 | repeating a write changes nothing (the script stores vendor consents twice) |
| ConsentStorage.WritesCommute | app/src/main/java/com/conversantmedia/gdprcmp/utils/ConsentStorage.kt:30-37 | writes to different keys commute |
| ConsentStorage.RestrictionKeysDistinct | app/src/main/java/com/conversantmedia/gdprcmp/utils/ConsentStorage.kt:220-222 | two purposes share a restriction key iff they are the same purpose |
| ConsentStorage.TwoPurposesTwoEntries | app/src/main/java/com/conversantmedia/gdprcmp/utils/ConsentStorage.kt:220-222 | restrictions for two purposes are both kept |
| ConsentStorage.RestrictionKeyNotReadBack | app/src/main/java/com/conversantmedia/gdprcmp/utils/ConsentStorage.kt:220-222 | no restriction key collides with the two keys the config reads back |
| ConsentStorage.KeyTypesDisjoint | app/src/main/java/com/conversantmedia/gdprcmp/utils/ConsentStorage.kt:49-290 | no key is written both as an int and as a string; the TC string and config version are strings |
| ConsentStorage.IntWriteKeepsWellTyped | app/src/main/java/com/conversantmedia/gdprcmp/utils/ConsentStorage.kt:30-37 | an int written to an int key keeps every key at its one type |
| ConsentStorage.TcStringReadBack | app/src/main/java/com/conversantmedia/gdprcmp/config/CmpConfigObject.kt:53 | the stored TC string is what the config reads back |
| ConsentStorage.ConfigVersionReadBack | app/src/main/java/com/conversantmedia/gdprcmp/config/CmpConfigObject.kt:54 | the stored config version is what the config reads back |
| CmpJsInterface.ToInt | app/src/main/java/com/conversantmedia/gdprcmp/container/CmpJsInterface.kt:288 | 1 iff true, else 0 |
| CmpJsInterface.CmpJsInterface.constructor | app/src/main/java/com/conversantmedia/gdprcmp/container/CmpJsInterface.kt:28-32 | the interface wraps the store; no shell request has been made yet |
| CmpJsInterface.CmpJsInterface.StoreCmpSdkId | app/src/main/java/com/conversantmedia/gdprcmp/container/CmpJsInterface.kt:43-45 | the SDK id is stored under its key |
| CmpJsInterface.CmpJsInterface.StoreCmpSdkVersion | app/src/main/java/com/conversantmedia/gdprcmp/container/CmpJsInterface.kt:54-56 | the SDK version is stored under its key |
| CmpJsInterface.CmpJsInterface.StorePolicyVersion | app/src/main/java/com/conversantmedia/gdprcmp/container/CmpJsInterface.kt:66-68 | the policy version is stored under its key |
| CmpJsInterface.CmpJsInterface.StoreGdprApplies | app/src/main/java/com/conversantmedia/gdprcmp/container/CmpJsInterface.kt:78-80 | `gdprApplies` is stored as 1 or 0 |
| CmpJsInterface.CmpJsInterface.StoreCountryCode | app/src/main/java/com/conversantmedia/gdprcmp/container/CmpJsInterface.kt:89-91 | the publisher country code is stored |
| CmpJsInterface.CmpJsInterface.StorePurposeOneTreatment | app/src/main/java/com/conversantmedia/gdprcmp/container/CmpJsInterface.kt:100-102 | stored as 1 or 0 |
| CmpJsInterface.CmpJsInterface.StoreUseNonStandardStacks | app/src/main/java/com/conversantmedia/gdprcmp/container/CmpJsInterface.kt:111-113 | stored as 1 or 0 |
| CmpJsInterface.CmpJsInterface.StoreTCString | app/src/main/java/com/conversantmedia/gdprcmp/container/CmpJsInterface.kt:122-124 | the TC string is stored |
| CmpJsInterface.CmpJsInterface.StoreVendorConsents | app/src/main/java/com/conversantmedia/gdprcmp/container/CmpJsInterface.kt:133-135 | vendor consents stored |
| CmpJsInterface.CmpJsInterface.StoreVendorLegitimateInterests | app/src/main/java/com/conversantmedia/gdprcmp/container/CmpJsInterface.kt:144-146 | vendor legitimate interests stored |
| CmpJsInterface.CmpJsInterface.StorePurposeConsents | app/src/main/java/com/conversantmedia/gdprcmp/container/CmpJsInterface.kt:155-157 | purpose consents stored |
| CmpJsInterface.CmpJsInterface.StorePurposeLegitimateInterests | app/src/main/java/com/conversantmedia/gdprcmp/container/CmpJsInterface.kt:166-168 | purpose legitimate interests stored |
| CmpJsInterface.CmpJsInterface.StoreSpecialFeaturesOptIns | app/src/main/java/com/conversantmedia/gdprcmp/container/CmpJsInterface.kt:177-179 | special-feature opt-ins stored |
| CmpJsInterface.CmpJsInterface.StorePublisherRestrictions | app/src/main/java/com/conversantmedia/gdprcmp/container/CmpJsInterface.kt:189-191 | restrictions stored under the purpose's key |
| CmpJsInterface.CmpJsInterface.StorePublisherConsent | app/src/main/java/com/conversantmedia/gdprcmp/container/CmpJsInterface.kt:200-202 | publisher consent stored |
| CmpJsInterface.CmpJsInterface.StorePublisherLegitimateInterests | app/src/main/java/com/conversantmedia/gdprcmp/container/CmpJsInterface.kt:211-213 | publisher legitimate interests stored |
| CmpJsInterface.CmpJsInterface.StorePublisherCustomPurposesConsents | app/src/main/java/com/conversantmedia/gdprcmp/container/CmpJsInterface.kt:222-224 | custom purposes consents stored |
| CmpJsInterface.CmpJsInterface.StorePublisherCustomPurposesLegitimateInterests | app/src/main/java/com/conversantmedia/gdprcmp/container/CmpJsInterface.kt:233-235 | custom purposes legitimate interests stored |
| CmpJsInterface.CmpJsInterface.StoreConfigVersion | app/src/main/java/com/conversantmedia/gdprcmp/container/CmpJsInterface.kt:243-245 | the publisher config version stored |
| CmpJsInterface.CmpJsInterface.CmpComplete | app/src/main/java/com/conversantmedia/gdprcmp/container/CmpJsInterface.kt:252-255 | the shell is asked to end the session; the store is untouched |
| CmpJsInterface.CmpJsInterface.LoadCmp | app/src/main/java/com/conversantmedia/gdprcmp/container/CmpJsInterface.kt:263-273 | the check view is destroyed either way; iff consent is needed, gdprApplies becomes 1 and the dialog is started |
| CmpJsInterface.RestrictionsOnePerPurpose | app/src/main/java/com/conversantmedia/gdprcmp/container/BuildHtml.kt:121-123 | the restrictions loop leaves one entry per distinct purpose, each with its own value, and every other key as before |
| BuildHtml.Key | app/src/main/java/com/conversantmedia/gdprcmp/container/CmpJsInterface.kt:43-245 | each store callback other than restrictions names a key the store writes as an int or as a string |
| BuildHtml.InjectScript | app/src/main/java/com/conversantmedia/gdprcmp/container/BuildHtml.kt:85-152 | the script is the common head, then the check block (0), the display block (>0) or nothing (<0), then the common tail |
| BuildHtml.Page | app/src/main/java/com/conversantmedia/gdprcmp/container/BuildHtml.kt:27-35 | header, script tag opening, config assignment, config, script, bootstrap tag and footer, in order |
| BuildHtml.CheckRequired | app/src/main/java/com/conversantmedia/gdprcmp/container/BuildHtml.kt:27-35 | the page around the check script |
| BuildHtml.Display | app/src/main/java/com/conversantmedia/gdprcmp/container/BuildHtml.kt:43-52 | the page around the display script |
| BuildHtml.ConfigEmbeddedVerbatim | app/src/main/java/com/conversantmedia/gdprcmp/container/BuildHtml.kt:28-30 | the config text appears verbatim, right after `window.cmpConfig = ` |
| BuildHtml.PageDeterminesConfig | app/src/main/java/com/conversantmedia/gdprcmp/container/BuildHtml.kt:27-52 | two pages with the same script are equal iff their configs are |
| BuildHtml.HeadAndTailCommon | app/src/main/java/com/conversantmedia/gdprcmp/container/BuildHtml.kt:86-150 | every script starts with the same head and ends with the same tail |
| BuildHtml.NoCallsInHead | app/src/main/java/com/conversantmedia/gdprcmp/container/BuildHtml.kt:86-94 | the head makes no callback |
| BuildHtml.NoCallsInTail | app/src/main/java/com/conversantmedia/gdprcmp/container/BuildHtml.kt:134-150 | the tail makes no callback |
| BuildHtml.CheckBlockCalls | app/src/main/java/com/conversantmedia/gdprcmp/container/BuildHtml.kt:95-100 | the check block calls `loadCmp` twice: once with the verdict, once in the else branch |
| BuildHtml.RestrictionsLoopCalls | app/src/main/java/com/conversantmedia/gdprcmp/container/BuildHtml.kt:121-123 | the restrictions loop has one callback |
| BuildHtml.DisplayBlockCalls | app/src/main/java/com/conversantmedia/gdprcmp/container/BuildHtml.kt:101-132 | the display block's callbacks, in source order |
| BuildHtml.ScriptCalls | app/src/main/java/com/conversantmedia/gdprcmp/container/BuildHtml.kt:85-152 | the script's callbacks: two `loadCmp` for 0, the display calls for >0, none for <0 |
| BuildHtml.DisplayCallsEveryStore | app/src/main/java/com/conversantmedia/gdprcmp/container/BuildHtml.kt:106-128 | every store callback occurs in the display block's calls |
| BuildHtml.DisplayCallsOrder | app/src/main/java/com/conversantmedia/gdprcmp/container/BuildHtml.kt:106-128 | vendor consents are stored at positions 9 and 10 only; `cmpComplete` is last, after every store |
| BuildHtml.DisplayScriptOrder | app/src/main/java/com/conversantmedia/gdprcmp/container/BuildHtml.kt:101-132 | the display script makes every store callback, stores vendor consents at positions 9 and 10, and ends with `cmpComplete` after stores only; the check script (and a negative argument) makes no store callback |
| BuildHtml.DisplayWritesEveryFixedKey | app/src/main/java/com/conversantmedia/gdprcmp/container/BuildHtml.kt:106-128 | every fixed IAB key is written by some display callback |

## Left out

- The org.json text parser is not modelled. A document arrives already parsed, or as the parser's error message. Key order inside objects, number formatting and the text the page embeds for the JSON value are not modelled either: `BuildHtml` takes the config text as a string.
- The durability of `SharedPreferences.apply()` (asynchronous commit) is not modelled. The store is a map that changes at once.
- The advertising-id coroutine (`AdvertisingId.kt`) and the Play Services call are not modelled. The fetched id is a parameter (`CmpConfigObject.AdvertisingId`); `None` stands for the two exceptions the lookup catches, `IOException` and `CnvrCmpException`. Any other exception from the Play Services client (for example from `start()`) propagates out of `getConfigString` and is not modelled.
- The clock is a parameter: `System.currentTimeMillis()` enters as `millis`.
- The Android `Uri.parse(...).isAbsolute` test is a predicate parameter, `isAbsolute`. `PackageManager.getApplicationInfo` is a map of metadata texts, and its `NameNotFoundException` is not modelled.
- `System.lineSeparator()` and `BuildConfig.CMP_URL` are parameters of the page builders.
- Starting activities, posting to the main looper and `webView.endCmp()` are recorded as requests in the interface's `shell` list. The activity started by `editConsents` is not recorded. `startCmp` is not modelled, because it only creates a web view.
- CmpWebView.kt, CmpWebClient.kt, CmpWebChromeClient.kt and CmpActivity.kt are not part of this model: they are Android UI.
- The behaviour of the embedded JavaScript, and of the TCF bootstrap it loads, is not modelled. The script is modelled as text, and only the order of its callback names is reasoned about.
- JsonTree.OptStringOf: an array or object under a string key gives "" in the model. org.json gives its JSON text, which the model does not render. An integer beyond 64 bits, which org.json holds as a double, gives its decimal text in the model rather than Java's double text.
- SharedPreferences.GetString: it requires that no `Int` is stored under the key. Android's `getString` throws ClassCastException there, and the model does not represent that exception. The requirement carries over to `CmpConfigObject.WithPreferences`, `CmpConfigObject.WithRuntime`, `CmpConfigObject.CmpConfig.ApplySharedPreferences` and `CmpConfigObject.CmpConfig.GetConfigString`. The two keys they read are only ever written as strings (`ConsentStorage.KeyTypesDisjoint`).
- CmpConfigObject.CmpConfig.constructor: it seeds `id` with the corrected `ConfigId(millis)`, not the as-written `IdAsWritten(millis)`. The two differ only when the clock's low 32 bits are `Int.MIN_VALUE`; see Findings.
- Numerals.ParseInt: digits are ASCII only. Kotlin's `toInt` also accepts other Unicode decimal digits.
- JsonTree.OptIntOf: a string is read only when it is an optional sign and digits. `Double.parseDouble` also accepts surrounding whitespace, fractions, exponents, `NaN` and `Infinity`; the model gives 0 for them, because it has no floating-point values. Fractional JSON numbers are not modelled either.
- JsonConfigReader.ReadCompanies, JsonConfigReader.ReadPurposes, JsonConfigReader.ReadTabs, JsonConfigReader.ReadReview and JsonConfigReader.ReadText: their own contracts state only the missing-object case. What they read from a present object is stated by the round-trip lemmas.

## Findings

| source | as written | input that shows it | evidently intended | confidence | as-written member | corrected member |
|---|---|---|---|---|---|---|
| app/src/main/java/com/conversantmedia/gdprcmp/config/CmpConfigObject.kt:211 | `currentTimeMillis().toInt().absoluteValue` is negative when the low 32 bits of the clock are `Int.MIN_VALUE`, because `absoluteValue` of `Int.MIN_VALUE` is `Int.MIN_VALUE` | millis = 1 720 134 402 048 (low 32 bits 0x8000_0000) gives id -2 147 483 648 | a non-negative id | not executed | CmpConfigObject.IdAsWrittenCanBeNegative | CmpConfigObject.ConfigId |
