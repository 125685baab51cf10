/**
 * Page assembly (BuildHtml.kt): the HTML loaded into the consent web view is
 * fixed fragments around the configuration text and one generated script.
 * The platform line separator and the bootstrap script URL are build
 * constants not visible here; they are parameters.
 *
 * Script text is kept as a list of lines so that the callbacks it makes into
 * the app (`cnvrMobileCmp.<name>(<args>);`) can be read back from it.
 */
module BuildHtml {
  import opened ConsentStorage

  // ---------------------------------------------------------------------------
  // The callbacks the script can make

  /** The `cnvrMobileCmp` methods a script calls. */
  datatype Callback =
    | StoreCmpSdkId | StoreConfigVersion | StoreCmpSdkVersion | StorePolicyVersion
    | StoreGdprApplies | StoreCountryCode | StorePurposeOneTreatment | StoreUseNonStandardStacks
    | StoreTCString | StoreVendorConsents | StoreVendorLegitimateInterests | StorePurposeConsents
    | StorePurposeLegitimateInterests | StoreSpecialFeaturesOptIns | StorePublisherRestrictions
    | StorePublisherConsent | StorePublisherLegitimateInterests | StorePublisherCustomPurposesConsents
    | StorePublisherCustomPurposesLegitimateInterests
    | CmpComplete | LoadCmp
  {
    /** The name the script calls it by. */
    function Name(): string {
      match this
      case StoreCmpSdkId => "storeCmpSdkId"
      case StoreConfigVersion => "storeConfigVersion"
      case StoreCmpSdkVersion => "storeCmpSdkVersion"
      case StorePolicyVersion => "storePolicyVersion"
      case StoreGdprApplies => "storeGdprApplies"
      case StoreCountryCode => "storeCountryCode"
      case StorePurposeOneTreatment => "storePurposeOneTreatment"
      case StoreUseNonStandardStacks => "storeUseNonStandardStacks"
      case StoreTCString => "storeTCString"
      case StoreVendorConsents => "storeVendorConsents"
      case StoreVendorLegitimateInterests => "storeVendorLegitimateInterests"
      case StorePurposeConsents => "storePurposeConsents"
      case StorePurposeLegitimateInterests => "storePurposeLegitimateInterests"
      case StoreSpecialFeaturesOptIns => "storeSpecialFeaturesOptIns"
      case StorePublisherRestrictions => "storePublisherRestrictions"
      case StorePublisherConsent => "storePublisherConsent"
      case StorePublisherLegitimateInterests => "storePublisherLegitimateInterests"
      case StorePublisherCustomPurposesConsents => "storePublisherCustomPurposesConsents"
      case StorePublisherCustomPurposesLegitimateInterests => "storePublisherCustomPurposesLegitimateInterests"
      case CmpComplete => "cmpComplete"
      case LoadCmp => "loadCmp"
    }

    /** A callback that writes the consent store (one `store*` method of the interface). */
    predicate IsStore() {
      !(CmpComplete? || LoadCmp?)
    }

    /** The fixed store key the callback writes; restrictions go under per-purpose keys. */
    function Key(): (k: string)
      requires IsStore() && !StorePublisherRestrictions?
      ensures k in INT_KEYS + STRING_KEYS
    {
      match this
      case StoreCmpSdkId => CMP_SDK_ID
      case StoreConfigVersion => CONFIG_VERSION
      case StoreCmpSdkVersion => CMP_SDK_VERSION
      case StorePolicyVersion => POLICY_VERSION
      case StoreGdprApplies => GDPR_APPLIES
      case StoreCountryCode => PUBLISHER_CC
      case StorePurposeOneTreatment => PURPOSE_ONE_TREATMENT
      case StoreUseNonStandardStacks => USE_NON_STANDARD_STACKS
      case StoreTCString => TC_STRING
      case StoreVendorConsents => VENDOR_CONSENTS
      case StoreVendorLegitimateInterests => VENDOR_LEGITIMATE_INTERESTS
      case StorePurposeConsents => PURPOSE_CONSENTS
      case StorePurposeLegitimateInterests => PURPOSE_LEGITIMATE_INTERESTS
      case StoreSpecialFeaturesOptIns => SPECIAL_FEATURES_OPT_INS
      case StorePublisherConsent => PUBLISHER_CONSENT
      case StorePublisherLegitimateInterests => PUBLISHER_LEGITIMATE_INTERESTS
      case StorePublisherCustomPurposesConsents => PUBLISHER_CUSTOM_PURPOSES_CONSENTS
      case StorePublisherCustomPurposesLegitimateInterests => PUBLISHER_CUSTOM_PURPOSES_LEGITIMATE_INTERESTS
    }
  }

  // ---------------------------------------------------------------------------
  // Script text

  /** One source line of generated script: plain text, or one callback into the app. */
  datatype Line =
    | Text(indent: nat, text: string)
    | Call(indent: nat, callback: Callback, args: string)

  function Spaces(n: nat): (s: string)
    ensures |s| == n && forall i | 0 <= i < n :: s[i] == ' '
  {
    seq(n, _ => ' ')
  }

  function RenderLine(l: Line): string {
    match l
    case Text(n, t) => Spaces(n) + t
    case Call(n, cb, args) => Spaces(n) + "cnvrMobileCmp." + cb.Name() + "(" + args + ");\n"
  }

  /** The script text of a list of lines. */
  function Render(lines: seq<Line>): string
    decreases |lines|
  {
    if lines == [] then "" else RenderLine(lines[0]) + Render(lines[1..])
  }

  /** The callbacks a list of lines makes, in the order written. */
  function Calls(lines: seq<Line>): seq<Callback>
    decreases |lines|
  {
    if lines == [] then [] else (if lines[0].Call? then [lines[0].callback] else []) + Calls(lines[1..])
  }

  /** The opening of every script: ping the consent API and listen for TC data. */
  const SCRIPT_HEAD: seq<Line> := [
    Text(0, "\n"),
    Text(0, "addTCListener = function () {\n"),
    Text(4, "__tcfapi('ping', 2, (pingReturn) => {\n"),
    Text(13, "if (pingReturn && pingReturn.cmpStatus == \"loaded\")\n"),
    Text(13, "{\n"),
    Text(16, "__tcfapi('addEventListener', 2, function (tcData, success){\n"),
    Text(21, "if(success && tcData.eventStatus === 'tcloaded') {\n"),
    Text(29, "__tcfapi('removeEventListener', 2, (success) => {}, tcData.listenerId);\n"),
    Text(21, "}\n")
  ]

  /** The consent check: report whether the consent dialog was shown. */
  const CHECK_BLOCK: seq<Line> := [
    Text(21, "if(success && tcData.eventStatus === 'cmpuishown') {\n"),
    Call(27, LoadCmp, "true"),
    Text(21, "} else {"),
    Call(27, LoadCmp, "false"),
    Text(21, "}\n")
  ]

  /** The display, up to the TC data: once the user has acted, fetch the in-app TC data. */
  const DISPLAY_OPEN: seq<Line> := [
    Text(20, "if(success && tcData.eventStatus === 'useractioncomplete') {\n"),
    Text(25, "__tcfapi('removeEventListener', 2, (success) => {}, tcData.listenerId);\n"),
    Text(25, "__tcfapi('getInAppTCData', 2, (inAppTCData, success) => {\n"),
    Text(27, "if(success) {\n")
  ]

  /** The TC data fields handed to the app, one store callback each (vendor consents twice). */
  const TC_DATA_STORES: seq<Line> := [
    Call(29, StoreCmpSdkId, "inAppTCData.cmpId"),
    Call(29, StoreConfigVersion, "window.cmpConfig.version"),
    Call(29, StoreCmpSdkVersion, "inAppTCData.cmpVersion"),
    Call(29, StorePolicyVersion, "inAppTCData.tcfPolicyVersion"),
    Call(29, StoreGdprApplies, "inAppTCData.gdprApplies"),
    Call(29, StoreCountryCode, "inAppTCData.publisherCC"),
    Call(29, StorePurposeOneTreatment, "inAppTCData.purposeOneTreatment"),
    Call(29, StoreUseNonStandardStacks, "inAppTCData.useNonStandardStacks"),
    Call(29, StoreTCString, "inAppTCData.tcString"),
    Call(29, StoreVendorConsents, "inAppTCData[\"vendor\"][\"consents\"]"),
    Call(29, StoreVendorConsents, "inAppTCData.vendor.consents"),
    Call(29, StoreVendorLegitimateInterests, "inAppTCData.vendor.legitimateInterests"),
    Call(29, StorePurposeConsents, "inAppTCData.purpose.consents"),
    Call(29, StorePurposeLegitimateInterests, "inAppTCData.purpose.legitimateInterests"),
    Call(29, StoreSpecialFeaturesOptIns, "inAppTCData.specialFeatureOptins")
  ]

  /** One restriction callback per key of the publisher restrictions object. */
  const RESTRICTIONS_LOOP: seq<Line> := [
    Text(29, "for (position in inAppTCData.publisher.restrictions) {\n"),
    Call(31, StorePublisherRestrictions, "position, inAppTCData.publisher.restrictions[position]"),
    Text(29, "}\n")
  ]

  /** The publisher fields, then the end of the session. */
  const PUBLISHER_STORES_THEN_COMPLETE: seq<Line> := [
    Call(29, StorePublisherConsent, "inAppTCData.publisher.consents"),
    Call(29, StorePublisherLegitimateInterests, "inAppTCData.publisher.legitimateInterests"),
    Call(29, StorePublisherCustomPurposesConsents, "inAppTCData.publisher.customPurpose.consents"),
    Call(29, StorePublisherCustomPurposesLegitimateInterests, "inAppTCData.publisher.customPurpose.legitimateInterests"),
    Call(29, CmpComplete, "")
  ]

  const DISPLAY_CLOSE: seq<Line> := [
    Text(27, "}\n"),
    Text(25, "});\n"),
    Text(20, "}\n")
  ]

  /** The display: once the user has acted, hand every TC data field to the app. */
  const DISPLAY_BLOCK: seq<Line> :=
    DISPLAY_OPEN + TC_DATA_STORES + RESTRICTIONS_LOOP + PUBLISHER_STORES_THEN_COMPLETE + DISPLAY_CLOSE

  /** The closing of every script: retry while the API loads, start on page load. */
  const SCRIPT_TAIL: seq<Line> := [
    Text(16, "});\n"),
    Text(13, "} else if (pingReturn && (pingReturn.cmpStatus == \"stub\" || pingReturn.cmpStatus == \"loading\"))\n"),
    Text(13, "{\n"),
    Text(16, "setTimeout(addTCListener,500);\n"),
    Text(13, "}\n"),
    Text(4, "});\n"),
    Text(0, "};\n"),
    Text(0, "addPingListener = function () {\n"),
    Text(4, "if (typeof __tcfapi === \"function\") {\n"),
    Text(8, "addTCListener();\n"),
    Text(4, "} else {\n"),
    Text(8, "setTimeout(addPingListener,100);\n"),
    Text(4, "}\n"),
    Text(0, "}\n"),
    Text(0, "window.addEventListener('load', (event) => {\n"),
    Text(8, "addPingListener();\n"),
    Text(0, "});\n")
  ]

  /** The block between head and tail: the check (0), the display (1 or more), or nothing. */
  function Block(checkOrShow: int): seq<Line> {
    if checkOrShow == 0 then CHECK_BLOCK else if checkOrShow > 0 then DISPLAY_BLOCK else []
  }

  /** The lines of `injectScript(checkOrShow)`. */
  function ScriptLines(checkOrShow: int): seq<Line> {
    SCRIPT_HEAD + Block(checkOrShow) + SCRIPT_TAIL
  }

  /** `injectScript`: the head, then the check block (0) or the display block (1 or more), then the tail. */
  method InjectScript(checkOrShow: int) returns (jScript: string)
    ensures jScript == Render(ScriptLines(checkOrShow))
  {
    jScript := Render(SCRIPT_HEAD);
    if checkOrShow == 0 {
      jScript := jScript + Render(CHECK_BLOCK);
    }
    if checkOrShow > 0 {
      jScript := jScript + Render(DISPLAY_BLOCK);
    }
    if checkOrShow < 0 {
      assert SCRIPT_HEAD + Block(checkOrShow) == SCRIPT_HEAD;
    } else {
      RenderAppend(SCRIPT_HEAD, Block(checkOrShow));
    }
    jScript := jScript + Render(SCRIPT_TAIL);
    RenderAppend(SCRIPT_HEAD + Block(checkOrShow), SCRIPT_TAIL);
  }

  // ---------------------------------------------------------------------------
  // The page

  const HEADER := "\n<html>  <head>\n    <meta name=\"viewport\" content=\"width=device-width, initial-scale=1\">\n"
  const FOOTER := "\n  </head>\n  <body>\n  </body>\n</html>"
  const OPEN_SCRIPT := "<script>\n"
  const CLOSE_SCRIPT := "\n</script>\n"
  const CMP_CONFIG := "window.cmpConfig = "

  /** The bootstrap tag that loads the consent platform's script. */
  function ScriptTag(bootStrapScript: string): string {
    "<script src =\"" + bootStrapScript + "\"></script>"
  }

  /** What precedes the configuration text on every page. */
  function PagePrefix(newLine: string): string {
    HEADER + OPEN_SCRIPT + newLine + CMP_CONFIG
  }

  /** What follows the configuration text on a page carrying `script`. */
  function PageSuffix(script: string, newLine: string, bootStrapScript: string): string {
    newLine + script + newLine + CLOSE_SCRIPT + ScriptTag(bootStrapScript) + newLine + FOOTER
  }

  /** The page around a configuration text and a script. */
  function Page(config: string, script: string, newLine: string, bootStrapScript: string): (page: string)
    ensures page == PagePrefix(newLine) + config + PageSuffix(script, newLine, bootStrapScript)
  {
    HEADER + OPEN_SCRIPT + newLine + CMP_CONFIG + config + newLine + script + newLine
      + CLOSE_SCRIPT + ScriptTag(bootStrapScript) + newLine + FOOTER
  }

  /** `checkRequired(config)`: the page whose script only checks whether consent is needed. */
  method CheckRequired(config: string, newLine: string, bootStrapScript: string) returns (page: string)
    ensures page == Page(config, Render(ScriptLines(0)), newLine, bootStrapScript)
  {
    var script := InjectScript(0);
    page := HEADER + OPEN_SCRIPT + newLine + CMP_CONFIG + config + newLine + script + newLine
      + CLOSE_SCRIPT + ScriptTag(bootStrapScript) + newLine + FOOTER;
  }

  /** `display(config)`: the same page with the script that captures the user's choices. */
  method Display(config: string, newLine: string, bootStrapScript: string) returns (page: string)
    ensures page == Page(config, Render(ScriptLines(1)), newLine, bootStrapScript)
  {
    var script := InjectScript(1);
    page := HEADER + OPEN_SCRIPT + newLine + CMP_CONFIG + config + newLine + script + newLine
      + CLOSE_SCRIPT + ScriptTag(bootStrapScript) + newLine + FOOTER;
  }

  // ---------------------------------------------------------------------------
  // Properties

  lemma {:induction false} RenderAppend(a: seq<Line>, b: seq<Line>)
    ensures Render(a + b) == Render(a) + Render(b)
    decreases |a|
  {
    if a == [] {
      assert a + b == b;
    } else {
      assert (a + b)[0] == a[0] && (a + b)[1..] == a[1..] + b;
      RenderAppend(a[1..], b);
      assert Render(a + b) == RenderLine(a[0]) + Render(a[1..] + b);
      assert Render(a + b) == RenderLine(a[0]) + (Render(a[1..]) + Render(b));
    }
  }

  lemma {:induction false} CallsAppend(a: seq<Line>, b: seq<Line>)
    ensures Calls(a + b) == Calls(a) + Calls(b)
    decreases |a|
  {
    if a == [] {
      assert a + b == b;
    } else {
      assert (a + b)[0] == a[0] && (a + b)[1..] == a[1..] + b;
      CallsAppend(a[1..], b);
    }
  }

  /**
   * The configuration text is carried verbatim, unescaped, right after
   * `window.cmpConfig = `, and can be cut back out of the page.
   */
  lemma ConfigEmbeddedVerbatim(config: string, script: string, newLine: string, bootStrapScript: string)
    ensures var page := Page(config, script, newLine, bootStrapScript);
            var start := |PagePrefix(newLine)|;
            && start + |config| <= |page|
            && page[..start] == PagePrefix(newLine)
            && page[start - |CMP_CONFIG|..start] == CMP_CONFIG
            && page[start..start + |config|] == config
            && page[start + |config|..] == PageSuffix(script, newLine, bootStrapScript)
  {
    var page := Page(config, script, newLine, bootStrapScript);
    var start := |PagePrefix(newLine)|;
    assert page == PagePrefix(newLine) + (config + PageSuffix(script, newLine, bootStrapScript));
    assert PagePrefix(newLine) == (HEADER + OPEN_SCRIPT + newLine) + CMP_CONFIG;
  }

  /** Two pages with the same script differ exactly when their configurations differ. */
  lemma PageDeterminesConfig(c1: string, c2: string, script: string, newLine: string, bootStrapScript: string)
    ensures Page(c1, script, newLine, bootStrapScript) == Page(c2, script, newLine, bootStrapScript) <==> c1 == c2
  {
    if Page(c1, script, newLine, bootStrapScript) == Page(c2, script, newLine, bootStrapScript) {
      ConfigEmbeddedVerbatim(c1, script, newLine, bootStrapScript);
      ConfigEmbeddedVerbatim(c2, script, newLine, bootStrapScript);
    }
  }

  /** Cutting a string into three known parts gives the first and the last back. */
  lemma {:induction false} Ends(a: string, b: string, c: string)
    ensures |a| + |c| <= |a + b + c|
    ensures (a + b + c)[..|a|] == a && (a + b + c)[|a + b + c| - |c|..] == c
  {
    assert a + b + c == a + (b + c);
  }

  /** Every script starts with the common head and ends with the common tail. */
  lemma HeadAndTailCommon(checkOrShow: int)
    ensures var s := Render(ScriptLines(checkOrShow));
            && |Render(SCRIPT_HEAD)| + |Render(SCRIPT_TAIL)| <= |s|
            && s[..|Render(SCRIPT_HEAD)|] == Render(SCRIPT_HEAD)
            && s[|s| - |Render(SCRIPT_TAIL)|..] == Render(SCRIPT_TAIL)
  {
    RenderAppend(SCRIPT_HEAD, Block(checkOrShow));
    RenderAppend(SCRIPT_HEAD + Block(checkOrShow), SCRIPT_TAIL);
    Ends(Render(SCRIPT_HEAD), Render(Block(checkOrShow)), Render(SCRIPT_TAIL));
  }

  lemma NoCallsInHead()
    ensures Calls(SCRIPT_HEAD) == []
  {
    var i := |SCRIPT_HEAD|;
    while i > 0
      invariant 0 <= i <= |SCRIPT_HEAD|
      invariant Calls(SCRIPT_HEAD[i..]) == []
    {
      i := i - 1;
      assert SCRIPT_HEAD[i..][1..] == SCRIPT_HEAD[i + 1..];
    }
  }

  lemma NoCallsInTail()
    ensures Calls(SCRIPT_TAIL) == []
  {
    var i := |SCRIPT_TAIL|;
    while i > 0
      invariant 0 <= i <= |SCRIPT_TAIL|
      invariant Calls(SCRIPT_TAIL[i..]) == []
    {
      i := i - 1;
      assert SCRIPT_TAIL[i..][1..] == SCRIPT_TAIL[i + 1..];
    }
  }

  /** The calls the check block makes: loadCmp(true) when the dialog was shown, loadCmp(false) otherwise. */
  lemma CheckBlockCalls()
    ensures Calls(CHECK_BLOCK) == [LoadCmp, LoadCmp]
  {
    assert CHECK_BLOCK[4..][1..] == [];
    assert CHECK_BLOCK[3..][1..] == CHECK_BLOCK[4..];
    assert CHECK_BLOCK[2..][1..] == CHECK_BLOCK[3..];
    assert CHECK_BLOCK[1..][1..] == CHECK_BLOCK[2..];
  }

  /** The callbacks of lines that are all callbacks. */
  function Callbacks(lines: seq<Line>): (cbs: seq<Callback>)
    requires forall i | 0 <= i < |lines| :: lines[i].Call?
    ensures |cbs| == |lines|
  {
    seq(|lines|, i requires 0 <= i < |lines| => lines[i].callback)
  }

  /** A list of lines that are all callbacks makes exactly those callbacks. */
  lemma {:induction false} CallsOfCallLines(lines: seq<Line>)
    requires forall i | 0 <= i < |lines| :: lines[i].Call?
    ensures Calls(lines) == Callbacks(lines)
    decreases |lines|
  {
    if lines != [] {
      CallsOfCallLines(lines[1..]);
      assert Callbacks(lines) == [lines[0].callback] + Callbacks(lines[1..]);
    }
  }

  /** The calls of the display block, in order: the TC data stores, the restrictions, the publisher stores, the end. */
  const DISPLAY_CALLS: seq<Callback> :=
    Callbacks(TC_DATA_STORES) + [StorePublisherRestrictions] + Callbacks(PUBLISHER_STORES_THEN_COMPLETE)

  lemma NoCallsAroundDisplay()
    ensures Calls(DISPLAY_OPEN) == [] && Calls(DISPLAY_CLOSE) == []
  {
    assert DISPLAY_OPEN[3..][1..] == [];
    assert DISPLAY_OPEN[2..][1..] == DISPLAY_OPEN[3..];
    assert DISPLAY_OPEN[1..][1..] == DISPLAY_OPEN[2..];
    assert DISPLAY_CLOSE[2..][1..] == [];
    assert DISPLAY_CLOSE[1..][1..] == DISPLAY_CLOSE[2..];
  }

  lemma RestrictionsLoopCalls()
    ensures Calls(RESTRICTIONS_LOOP) == [StorePublisherRestrictions]
  {
    assert RESTRICTIONS_LOOP[2..][1..] == [];
    assert RESTRICTIONS_LOOP[1..][1..] == RESTRICTIONS_LOOP[2..];
  }

  /** The calls of a display-shaped block: two runs of callbacks around one restriction loop. */
  lemma DisplayShapeCalls(open: seq<Line>, stores: seq<Line>, loop: seq<Line>, last: seq<Line>, close: seq<Line>)
    requires Calls(open) == [] && Calls(close) == [] && Calls(loop) == [StorePublisherRestrictions]
    requires forall i | 0 <= i < |stores| :: stores[i].Call?
    requires forall i | 0 <= i < |last| :: last[i].Call?
    ensures Calls(open + stores + loop + last + close)
            == Callbacks(stores) + [StorePublisherRestrictions] + Callbacks(last)
  {
    CallsAppend(open, stores);
    CallsAppend(open + stores, loop);
    CallsAppend(open + stores + loop, last);
    CallsAppend(open + stores + loop + last, close);
    CallsOfCallLines(stores);
    CallsOfCallLines(last);
  }

  lemma DisplayBlockCalls()
    ensures Calls(DISPLAY_BLOCK) == DISPLAY_CALLS
  {
    NoCallsAroundDisplay();
    RestrictionsLoopCalls();
    DisplayShapeCalls(DISPLAY_OPEN, TC_DATA_STORES, RESTRICTIONS_LOOP, PUBLISHER_STORES_THEN_COMPLETE, DISPLAY_CLOSE);
  }

  /**
   * Which callbacks each script makes: the check script only reports the
   * verdict, the display script only stores and then completes, and a
   * negative argument gives a script that makes no callback at all.
   */
  lemma ScriptCalls(checkOrShow: int)
    ensures checkOrShow == 0 ==> Calls(ScriptLines(checkOrShow)) == [LoadCmp, LoadCmp]
    ensures checkOrShow > 0 ==> Calls(ScriptLines(checkOrShow)) == DISPLAY_CALLS
    ensures checkOrShow < 0 ==> Calls(ScriptLines(checkOrShow)) == []
  {
    CallsAppend(SCRIPT_HEAD, Block(checkOrShow));
    CallsAppend(SCRIPT_HEAD + Block(checkOrShow), SCRIPT_TAIL);
    NoCallsInHead();
    NoCallsInTail();
    if checkOrShow == 0 {
      CheckBlockCalls();
    } else if checkOrShow > 0 {
      DisplayBlockCalls();
    }
  }

  /** Each store callback occurs in the display block's calls. */
  lemma DisplayCallsEveryStore(cb: Callback)
    requires cb.IsStore()
    ensures cb in DISPLAY_CALLS
  {
    var calls := DISPLAY_CALLS;
    match cb
    case StoreCmpSdkId => assert calls[0] == cb;
    case StoreConfigVersion => assert calls[1] == cb;
    case StoreCmpSdkVersion => assert calls[2] == cb;
    case StorePolicyVersion => assert calls[3] == cb;
    case StoreGdprApplies => assert calls[4] == cb;
    case StoreCountryCode => assert calls[5] == cb;
    case StorePurposeOneTreatment => assert calls[6] == cb;
    case StoreUseNonStandardStacks => assert calls[7] == cb;
    case StoreTCString => assert calls[8] == cb;
    case StoreVendorConsents => assert calls[9] == cb;
    case StoreVendorLegitimateInterests => assert calls[11] == cb;
    case StorePurposeConsents => assert calls[12] == cb;
    case StorePurposeLegitimateInterests => assert calls[13] == cb;
    case StoreSpecialFeaturesOptIns => assert calls[14] == cb;
    case StorePublisherRestrictions => assert calls[15] == cb;
    case StorePublisherConsent => assert calls[16] == cb;
    case StorePublisherLegitimateInterests => assert calls[17] == cb;
    case StorePublisherCustomPurposesConsents => assert calls[18] == cb;
    case StorePublisherCustomPurposesLegitimateInterests => assert calls[19] == cb;
  }

  /** In the display block vendor consents are stored at two places, and the last call completes the session after stores only. */
  lemma DisplayCallsOrder()
    ensures (set i | 0 <= i < |DISPLAY_CALLS| && DISPLAY_CALLS[i] == StoreVendorConsents) == {9, 10}
    ensures DISPLAY_CALLS[|DISPLAY_CALLS| - 1] == CmpComplete
    ensures forall i | 0 <= i < |DISPLAY_CALLS| - 1 :: DISPLAY_CALLS[i].IsStore()
  {
  }

  /**
   * In every display script (argument 1 or more) every store callback is made,
   * vendor consents are stored at exactly two places, and `cmpComplete` is the
   * last call, after every store; the check script (0) never stores.
   */
  lemma DisplayScriptOrder(checkOrShow: int)
    ensures var calls := Calls(ScriptLines(checkOrShow));
            checkOrShow > 0 ==>
              && (forall cb: Callback | cb.IsStore() :: cb in calls)
              && (set i | 0 <= i < |calls| && calls[i] == StoreVendorConsents) == {9, 10}
              && calls[|calls| - 1] == CmpComplete
              && (forall i | 0 <= i < |calls| - 1 :: calls[i].IsStore())
    ensures checkOrShow <= 0 ==> forall cb | cb in Calls(ScriptLines(checkOrShow)) :: !cb.IsStore()
  {
    ScriptCalls(checkOrShow);
    if checkOrShow > 0 {
      forall cb: Callback | cb.IsStore() ensures cb in DISPLAY_CALLS {
        DisplayCallsEveryStore(cb);
      }
      DisplayCallsOrder();
    }
  }

  /** Each fixed key of the consent store has a store callback that writes it. */
  lemma WriterOf(k: string) returns (cb: Callback)
    requires k in INT_KEYS + STRING_KEYS
    ensures cb.IsStore() && !cb.StorePublisherRestrictions? && cb.Key() == k
  {
    cb :=
      if k == CMP_SDK_ID then StoreCmpSdkId else
      if k == CONFIG_VERSION then StoreConfigVersion else
      if k == CMP_SDK_VERSION then StoreCmpSdkVersion else
      if k == POLICY_VERSION then StorePolicyVersion else
      if k == GDPR_APPLIES then StoreGdprApplies else
      if k == PUBLISHER_CC then StoreCountryCode else
      if k == PURPOSE_ONE_TREATMENT then StorePurposeOneTreatment else
      if k == USE_NON_STANDARD_STACKS then StoreUseNonStandardStacks else
      if k == TC_STRING then StoreTCString else
      if k == VENDOR_CONSENTS then StoreVendorConsents else
      if k == VENDOR_LEGITIMATE_INTERESTS then StoreVendorLegitimateInterests else
      if k == PURPOSE_CONSENTS then StorePurposeConsents else
      if k == PURPOSE_LEGITIMATE_INTERESTS then StorePurposeLegitimateInterests else
      if k == SPECIAL_FEATURES_OPT_INS then StoreSpecialFeaturesOptIns else
      if k == PUBLISHER_CONSENT then StorePublisherConsent else
      if k == PUBLISHER_LEGITIMATE_INTERESTS then StorePublisherLegitimateInterests else
      if k == PUBLISHER_CUSTOM_PURPOSES_CONSENTS then StorePublisherCustomPurposesConsents else
      StorePublisherCustomPurposesLegitimateInterests;
  }

  /** Every fixed key of the consent store is written by some callback of the display block. */
  lemma DisplayWritesEveryFixedKey(k: string)
    requires k in INT_KEYS + STRING_KEYS
    ensures exists i | 0 <= i < |DISPLAY_CALLS| ::
              DISPLAY_CALLS[i].IsStore() && !DISPLAY_CALLS[i].StorePublisherRestrictions?
              && DISPLAY_CALLS[i].Key() == k
  {
    var cb := WriterOf(k);
    DisplayCallsEveryStore(cb);
  }
}
