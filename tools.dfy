/**
 * String parsing utilities of the manifest reader (Tools.kt): a bracketed,
 * comma-separated list of `Int`s, and a bracket-stripped one-element list.
 */
module Tools {
  import opened Wrappers
  import opened Numerals

  /** Kotlin `removeSurrounding(prefix, suffix)`: strips both, or neither. */
  function RemoveSurrounding(s: string, prefix: string, suffix: string): (r: string)
    ensures |s| >= |prefix| + |suffix| && prefix <= s && s[|s| - |suffix|..] == suffix ==>
              prefix + r + suffix == s
    ensures !(|s| >= |prefix| + |suffix| && prefix <= s && s[|s| - |suffix|..] == suffix) ==> r == s
  {
    if |s| >= |prefix| + |suffix| && prefix <= s && s[|s| - |suffix|..] == suffix
    then s[|prefix|..|s| - |suffix|]
    else s
  }

  function CountChar(s: string, c: char): nat {
    if s == [] then 0 else (if s[0] == c then 1 else 0) + CountChar(s[1..], c)
  }

  /** Kotlin `split(sep)` without a limit: every separator ends a part, empty parts are kept. */
  function Split(s: string, sep: char): (parts: seq<string>)
    ensures |parts| == CountChar(s, sep) + 1
    ensures forall i | 0 <= i < |parts| :: sep !in parts[i]
  {
    if s == [] then [""]
    else
      var rest := Split(s[1..], sep);
      if s[0] == sep then [""] + rest
      else [[s[0]] + rest[0]] + rest[1..]
  }

  /** `joinToString(sep)`, the inverse of `Split`. */
  function Join(parts: seq<string>, sep: char): string
    requires |parts| > 0
  {
    if |parts| == 1 then parts[0] else parts[0] + [sep] + Join(parts[1..], sep)
  }

  lemma {:induction false} JoinSplit(s: string, sep: char)
    ensures Join(Split(s, sep), sep) == s
  {
    if s != [] {
      var rest := Split(s[1..], sep);
      JoinSplit(s[1..], sep);
      if s[0] == sep {
        assert Split(s, sep)[1..] == rest;
      } else {
        var parts := Split(s, sep);
        if |rest| == 1 {
          assert parts == [[s[0]] + rest[0]];
        } else {
          assert parts[1..] == rest[1..];
          assert Join(rest, sep) == rest[0] + [sep] + Join(rest[1..], sep);
        }
      }
    }
  }

  lemma {:induction false} SplitJoin(parts: seq<string>, sep: char)
    requires |parts| > 0
    requires forall i | 0 <= i < |parts| :: sep !in parts[i]
    ensures Split(Join(parts, sep), sep) == parts
  {
    if |parts| == 1 {
      SplitNoSeparator(parts[0], sep);
    } else {
      SplitJoin(parts[1..], sep);
      SplitAfterPart(parts[0], Join(parts[1..], sep), sep);
      assert [parts[0]] + parts[1..] == parts;
    }
  }

  lemma {:induction false} SplitNoSeparator(s: string, sep: char)
    requires sep !in s
    ensures Split(s, sep) == [s]
  {
    if s != [] {
      SplitNoSeparator(s[1..], sep);
      assert [s[0]] + s[1..] == s;
    }
  }

  lemma {:induction false} SplitAfterPart(part: string, tail: string, sep: char)
    requires sep !in part
    ensures Split(part + [sep] + tail, sep) == [part] + Split(tail, sep)
  {
    if part == [] {
      assert part + [sep] + tail == [sep] + tail;
      assert ([sep] + tail)[1..] == tail;
    } else {
      SplitAfterPart(part[1..], tail, sep);
      assert (part + [sep] + tail)[1..] == part[1..] + [sep] + tail;
      var rest := Split(part[1..] + [sep] + tail, sep);
      assert rest[0] == part[1..];
      assert [part[0]] + part[1..] == part;
      assert rest[1..] == Split(tail, sep);
    }
  }

  /**
   * The `map { it.toInt() }` step: the first token that fails makes the whole
   * result `null` (the lambda's early `return null`).
   */
  function ParseAll(tokens: seq<string>): (r: Option<seq<Int32>>)
    ensures r.Some? <==> forall i | 0 <= i < |tokens| :: ParseInt(tokens[i]).Some?
    ensures r.Some? ==> |r.value| == |tokens| &&
                        forall i | 0 <= i < |tokens| :: ParseInt(tokens[i]) == Some(r.value[i])
  {
    if tokens == [] then Some([])
    else
      match ParseInt(tokens[0])
      case None => None
      case Some(v) =>
        match ParseAll(tokens[1..])
        case None => None
        case Some(vs) => Some([v] + vs)
  }

  /** The tokens `stringToIntJSONArray` parses: bracket-stripped text split at every comma. */
  function Tokens(s: string): seq<string> {
    Split(RemoveSurrounding(s, "[", "]"), ',')
  }

  /** `Tools.stringToIntJSONArray`. */
  function StringToIntJsonArray(intArrayString: Option<string>): (r: Option<seq<Int32>>)
    ensures intArrayString == None || intArrayString == Some("") ==> r == None
    ensures intArrayString.Some? && intArrayString.value != "" ==>
              r == ParseAll(Tokens(intArrayString.value))
  {
    if intArrayString.None? || intArrayString.value == "" then None
    else ParseAll(Tokens(intArrayString.value))
  }

  /** `Tools.stringArrayToJSONArray`: one element, the bracket-stripped text, never split. */
  function StringArrayToJsonArray(stringArray: Option<string>): (r: Option<seq<string>>)
    ensures r.Some? <==> stringArray.Some? && stringArray.value != ""
    ensures r.Some? ==> (|r.value| == 1 &&
      (if |stringArray.value| >= 2 && stringArray.value[0] == '[' && stringArray.value[|stringArray.value| - 1] == ']'
       then "[" + r.value[0] + "]" == stringArray.value
       else r.value[0] == stringArray.value))
  {
    if stringArray.None? || stringArray.value == "" then None
    else Some([RemoveSurrounding(stringArray.value, "[", "]")])
  }

  // ---------------------------------------------------------------------------
  // Properties of stringToIntJSONArray

  /** The decimal texts of `xs`, comma-joined. */
  function JoinDecimal(xs: seq<Int32>): (s: string)
    requires |xs| > 0
  {
    Join(DecimalTexts(xs), ',')
  }

  function DecimalTexts(xs: seq<Int32>): (ts: seq<string>)
    ensures |ts| == |xs|
    ensures forall i | 0 <= i < |xs| :: ts[i] == ToDecimal(xs[i])
  {
    if xs == [] then [] else [ToDecimal(xs[0])] + DecimalTexts(xs[1..])
  }

  /** `"[" + xs.joinToString(",") + "]"` parses back to `xs`, in order. */
  lemma BracketedListRoundTrip(xs: seq<Int32>)
    requires |xs| > 0
    ensures StringToIntJsonArray(Some("[" + JoinDecimal(xs) + "]")) == Some(xs)
  {
    var body := JoinDecimal(xs);
    var s := "[" + body + "]";
    assert s[|s| - 1..] == "]";
    assert RemoveSurrounding(s, "[", "]") == body;
    var ts := DecimalTexts(xs);
    SplitJoin(ts, ',');
    forall i | 0 <= i < |ts|
      ensures ParseInt(ts[i]) == Some(xs[i])
    {
      ParseIntOfToDecimal(xs[i]);
    }
    assert Tokens(s) == ts;
    var r := ParseAll(ts);
    assert r.Some? && |r.value| == |xs|;
    assert forall i | 0 <= i < |xs| :: r.value[i] == xs[i];
    assert r.value == xs;
  }

  /** The brackets are optional: `"1,2"` parses like `"[1,2]"`. */
  lemma BracketsOptional(t: string)
    requires t != "" && (t[0] != '[' || t[|t| - 1] != ']')
    ensures StringToIntJsonArray(Some(t)) == StringToIntJsonArray(Some("[" + t + "]"))
  {
    var s := "[" + t + "]";
    assert s[|s| - 1..] == "]";
    assert RemoveSurrounding(s, "[", "]") == t;
    assert t[|t| - 1..] == [t[|t| - 1]];
    assert RemoveSurrounding(t, "[", "]") == t;
  }

  /** An opening bracket without a closing one stays on the first token, which then fails. */
  lemma UnbalancedBracketIsNull(s: string)
    requires |s| > 0 && s[0] == '[' && s[|s| - 1] != ']'
    ensures StringToIntJsonArray(Some(s)) == None
  {
    assert RemoveSurrounding(s, "[", "]") == s;
    FirstPartStartsLikeText(s, ',');
    var ts := Tokens(s);
    assert ts == Split(s, ',');
    var first := ts[0];
    assert first[0] == '[';
    assert ParseInt(first) == None;
    assert ParseAll(ts) == None;
  }

  lemma {:induction false} FirstPartStartsLikeText(s: string, sep: char)
    requires |s| > 0 && s[0] != sep
    ensures |Split(s, sep)[0]| > 0 && Split(s, sep)[0][0] == s[0]
  {
  }

  /** On success there is one value per comma-separated token: commas plus one. */
  lemma LengthIsCommasPlusOne(s: string)
    requires StringToIntJsonArray(Some(s)).Some?
    ensures |StringToIntJsonArray(Some(s)).value| == CountChar(RemoveSurrounding(s, "[", "]"), ',') + 1
  {
  }

  /** Tokens are not trimmed: a blank after a comma makes the whole list null. */
  lemma SpaceAfterCommaIsNull()
    ensures StringToIntJsonArray(Some("[1, 2]")) == None
  {
    var s := "[1, 2]";
    assert s[|s| - 1..] == "]";
    assert RemoveSurrounding(s, "[", "]") == "1, 2";
    assert Tokens(s)[1][0] == ' ';
  }

  /** `"[]"` leaves the single empty token `""`, which does not parse. */
  lemma EmptyBracketsIsNull()
    ensures StringToIntJsonArray(Some("[]")) == None
  {
    var s := "[]";
    assert s[|s| - 1..] == "]";
    assert RemoveSurrounding(s, "[", "]") == "";
    assert Tokens(s) == [""];
  }

  /** `"[1,2,3]"` is `[1, 2, 3]`. */
  lemma ThreeElementExample()
    ensures StringToIntJsonArray(Some("[1,2,3]")) == Some([1, 2, 3])
  {
    BracketedListRoundTrip([1, 2, 3]);
    ThreeElementText();
  }

  lemma ThreeElementText()
    ensures "[" + JoinDecimal([1, 2, 3]) + "]" == "[1,2,3]"
  {
    assert ToDecimal(1) == "1" && ToDecimal(2) == "2" && ToDecimal(3) == "3";
    assert DecimalTexts([1, 2, 3]) == ["1", "2", "3"];
    assert Join(["3"], ',') == "3";
    assert Join(["2", "3"], ',') == "2,3";
  }
}
