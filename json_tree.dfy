/**
 * An abstract JSON tree, standing for org.json's JSONObject / JSONArray values,
 * and the `opt*` lookups the JSON configuration reader uses on it.
 * Key order is not modelled: an object is a map.
 */
module JsonTree {
  import opened Wrappers
  import opened Numerals

  datatype Json =
    | JNull                              // JSONObject.NULL
    | JBool(b: bool)
    | JInt(i: int)
    | JStr(s: string)
    | JArr(items: seq<Json>)
    | JObj(fields: map<string, Json>)

  type JsonObject = map<string, Json>

  /** The value reached by following `path` through nested objects, if every step exists. */
  function At(obj: JsonObject, path: seq<string>): (r: Option<Json>)
    requires |path| > 0
    ensures r.Some? ==> path[0] in obj
    ensures path[0] !in obj ==> r == None
    decreases |path|
  {
    if path[0] !in obj then None
    else if |path| == 1 then Some(obj[path[0]])
    else
      match obj[path[0]]
      case JObj(f) => At(f, path[1..])
      case _ => None
  }

  /** The value under `key`, or None when the key is absent. */
  function Lookup(obj: JsonObject, key: string): (r: Option<Json>)
    ensures r.Some? <==> key in obj
    ensures r.Some? ==> r.value == obj[key]
  {
    if key in obj then Some(obj[key]) else None
  }

  /** Two objects with the same lookups are the same object. */
  lemma SameLookups(a: JsonObject, b: JsonObject)
    requires forall k :: Lookup(a, k) == Lookup(b, k)
    ensures a == b
  {
    forall k | k in a
      ensures k in b && a[k] == b[k]
    {
      assert Lookup(a, k) == Lookup(b, k);
    }
    forall k | k in b
      ensures k in a
    {
      assert Lookup(a, k) == Lookup(b, k);
    }
  }

  /** A sequence of `put(key, value)` calls; a None value stands for a null that is not put. */
  type Puts = seq<(string, Option<Json>)>

  /** The object a fresh `JSONObject()` becomes after `puts`, made in order. */
  function Fill(puts: Puts): JsonObject
    decreases |puts|
  {
    if |puts| == 0 then map[]
    else
      var m := Fill(puts[..|puts| - 1]);
      var (key, v) := puts[|puts| - 1];
      if v.Some? then m[key := v.value] else m
  }

  /** One more put extends a prefix of `ps` by one. */
  lemma PrefixStep(ps: Puts, k: nat)
    requires k < |ps|
    ensures ps[..k] + [ps[k]] == ps[..k + 1]
  {
  }

  /** The value of the last put under `key` that was not null. */
  function Find(puts: Puts, key: string): Option<Json>
    decreases |puts|
  {
    if |puts| == 0 then None
    else if puts[|puts| - 1].0 == key && puts[|puts| - 1].1.Some? then puts[|puts| - 1].1
    else Find(puts[..|puts| - 1], key)
  }

  /** No key is put twice. */
  predicate DistinctKeys(puts: Puts) {
    forall i, j | 0 <= i < j < |puts| :: puts[i].0 != puts[j].0
  }

  /** No name occurs twice. */
  predicate DistinctNames(names: seq<string>) {
    forall i, j | 0 <= i < j < |names| :: names[i] != names[j]
  }

  /** No name of `a` occurs in `b`. */
  predicate Apart(a: seq<string>, b: seq<string>) {
    forall i, j | 0 <= i < |a| && 0 <= j < |b| :: a[i] != b[j]
  }

  /** Two lists of distinct names, sharing none, join into one. */
  lemma {:induction false} DistinctJoin(a: seq<string>, b: seq<string>)
    requires DistinctNames(a) && DistinctNames(b) && Apart(a, b)
    ensures DistinctNames(a + b)
  {
    forall i, j | 0 <= i < j < |a + b|
      ensures (a + b)[i] != (a + b)[j]
    {
      if j < |a| {
        assert (a + b)[i] == a[i] && (a + b)[j] == a[j];
      } else if i < |a| {
        assert (a + b)[i] == a[i] && (a + b)[j] == b[j - |a|];
      } else {
        assert (a + b)[i] == b[i - |a|] && (a + b)[j] == b[j - |a|];
      }
    }
  }

  /** A list apart from two lists is apart from their join. */
  lemma {:induction false} ApartJoin(a: seq<string>, b: seq<string>, c: seq<string>)
    requires Apart(a, c) && Apart(b, c)
    ensures Apart(a + b, c)
  {
    forall i, j | 0 <= i < |a + b| && 0 <= j < |c|
      ensures (a + b)[i] != c[j]
    {
      if i < |a| {
        assert (a + b)[i] == a[i];
      } else {
        assert (a + b)[i] == b[i - |a|];
      }
    }
  }

  /** The puts of `keys[i]` with `values[i]`, in order. */
  function Zip(keys: seq<string>, values: seq<Option<Json>>): (r: Puts)
    requires |keys| == |values|
    ensures |r| == |keys|
    ensures forall i | 0 <= i < |r| :: r[i] == (keys[i], values[i])
  {
    seq(|keys|, i requires 0 <= i < |keys| => (keys[i], values[i]))
  }

  /** Zipped puts of distinct names have distinct keys. */
  lemma ZipDistinct(keys: seq<string>, values: seq<Option<Json>>)
    requires |keys| == |values| && DistinctNames(keys)
    ensures DistinctKeys(Zip(keys, values))
  {
  }

  /** Puts whose keys are, in order, distinct names have distinct keys. */
  lemma KeysDistinct(puts: Puts, names: seq<string>)
    requires |puts| == |names| && forall i | 0 <= i < |puts| :: puts[i].0 == names[i]
    requires DistinctNames(names)
    ensures DistinctKeys(puts)
  {
  }

  /** A key holds the last non-null value put under it, and is absent when there is none. */
  lemma {:induction false} FillFind(puts: Puts, key: string)
    ensures Lookup(Fill(puts), key) == Find(puts, key)
    decreases |puts|
  {
    if |puts| > 0 {
      FillFind(puts[..|puts| - 1], key);
    }
  }

  /** When keys are distinct, each key holds exactly what was put under it (None: absent). */
  lemma {:induction false} FillKey(puts: Puts, i: nat)
    requires i < |puts| && DistinctKeys(puts)
    ensures Lookup(Fill(puts), puts[i].0) == puts[i].1
  {
    FillFind(puts, puts[i].0);
    FindUnique(puts, i);
  }

  lemma {:induction false} FindUnique(puts: Puts, i: nat)
    requires i < |puts| && DistinctKeys(puts)
    ensures Find(puts, puts[i].0) == puts[i].1
    decreases |puts|
  {
    var init := puts[..|puts| - 1];
    if i < |puts| - 1 {
      assert init[i] == puts[i];
      assert DistinctKeys(init);
      FindUnique(init, i);
    } else if puts[i].1.None? {
      FindMissing(init, puts[i].0);
    }
  }

  /** A key that is never put with a value is not found. */
  lemma {:induction false} FindMissing(puts: Puts, key: string)
    requires forall j | 0 <= j < |puts| :: puts[j].0 != key
    ensures Find(puts, key) == None
    decreases |puts|
  {
    if |puts| > 0 {
      var init := puts[..|puts| - 1];
      assert forall j | 0 <= j < |init| :: init[j] == puts[j];
      FindMissing(init, key);
    }
  }

  /** The object stays empty exactly when every value put was null. */
  lemma {:induction false} FillEmpty(puts: Puts)
    ensures Fill(puts) == map[] <==> forall i | 0 <= i < |puts| :: puts[i].1.None?
    decreases |puts|
  {
    if |puts| > 0 {
      var init := puts[..|puts| - 1];
      FillEmpty(init);
      assert forall i | 0 <= i < |init| :: init[i] == puts[i];
      var (key, v) := puts[|puts| - 1];
      if v.Some? {
        assert key in Fill(puts);
      }
    }
  }

  /** A one-step path is a plain lookup. */
  lemma AtKey(obj: JsonObject, key: string)
    ensures At(obj, [key]) == Lookup(obj, key)
  {
  }

  /** A longer path descends into the object under its first key, and finds nothing anywhere else. */
  lemma {:induction false} AtNested(obj: JsonObject, key: string, rest: seq<string>)
    requires |rest| > 0
    ensures Lookup(obj, key).Some? && Lookup(obj, key).value.JObj? ==> At(obj, [key] + rest) == At(obj[key].fields, rest)
    ensures !(Lookup(obj, key).Some? && Lookup(obj, key).value.JObj?) ==> At(obj, [key] + rest) == None
  {
    assert ([key] + rest)[0] == key;
    assert ([key] + rest)[1..] == rest;
  }

  /** Nothing lies beneath an empty object. */
  lemma {:induction false} AtEmpty(path: seq<string>)
    requires |path| > 0
    ensures At(map[], path) == None
  {
  }

  /** A non-empty object sits at `path`. */
  predicate ObjectAt(obj: JsonObject, path: seq<string>)
    requires |path| > 0
  {
    var r := At(obj, path);
    r.Some? && r.value.JObj? && r.value.fields != map[]
  }

  /**
   * `JSONObject.optString(key)` (default ""): a missing key gives "", JSONObject.NULL
   * its text "null", a string itself, a boolean or number its text.
   */
  function OptStringOf(obj: JsonObject, key: string): (r: string)
    ensures key !in obj ==> r == ""
    ensures key in obj && obj[key].JStr? ==> r == obj[key].s
    ensures key in obj && obj[key] == JNull ==> r == "null"
  {
    if key !in obj then ""
    else
      match obj[key]
      case JNull => "null"
      case JStr(s) => s
      case JBool(b) => if b then "true" else "false"
      case JInt(n) => ToDecimal(n)
      case JArr(_) => ""
      case JObj(_) => ""
  }

  /** ASCII case folding, enough for comparing with "true" and "false". */
  function Lower(c: char): char {
    if 'A' <= c <= 'Z' then (c as int + 32) as char else c
  }

  /** `String.equals(word, ignoreCase = true)` for a lower-case ASCII `word`. */
  predicate EqualsIgnoreCase(s: string, word: string) {
    |s| == |word| && forall i | 0 <= i < |s| :: Lower(s[i]) == word[i]
  }

  /**
   * `JSONObject.optBoolean(key)` (default false): a boolean, or a string that reads
   * "true" ignoring case; anything else is false.
   */
  function OptBooleanOf(obj: JsonObject, key: string): (r: bool)
    ensures r <==> key in obj && (obj[key] == JBool(true) || (obj[key].JStr? && EqualsIgnoreCase(obj[key].s, "true")))
  {
    if key !in obj then false
    else
      match obj[key]
      case JBool(b) => b
      case JStr(s) => EqualsIgnoreCase(s, "true")
      case _ => false
  }

  /**
   * `JSONObject.optInt(key)` (default 0). A number parsed from integral JSON text is an
   * Integer or Long when it fits in 64 bits and then gives its low 32 bits
   * (`Number.intValue()`); a wider one is a Double, whose `intValue()` saturates.
   * A string is read with `Double.parseDouble` and cast to `Int`, which saturates.
   * Anything else is 0.
   */
  function OptIntOf(obj: JsonObject, key: string): (r: Int32)
    ensures key !in obj ==> r == 0
    ensures key in obj && obj[key].JInt? && INT_MIN <= obj[key].i <= INT_MAX ==> r == obj[key].i
  {
    if key !in obj then 0
    else
      match obj[key]
      case JInt(n) => if LONG_MIN <= n <= LONG_MAX then Wrap32(n) else Saturate32(n)
      case JStr(s) => (match SignedDecimal(s) case Some(n) => Saturate32(n) case None => 0)
      case _ => 0
  }

  // The Kotlin receivers are nullable (`obj?.optString(key)`): a missing parent gives null.

  /** `obj?.optJSONObject(key)`: the object under `key`, or null when absent or not an object. */
  function OptObject(obj: Option<JsonObject>, key: string): (r: Option<JsonObject>)
    ensures r.Some? <==> obj.Some? && key in obj.value && obj.value[key].JObj?
    ensures r.Some? ==> r.value == obj.value[key].fields
  {
    if obj.Some? && key in obj.value && obj.value[key].JObj? then Some(obj.value[key].fields) else None
  }

  /** `obj?.optJSONArray(key)`. */
  function OptArray(obj: Option<JsonObject>, key: string): (r: Option<seq<Json>>)
    ensures r.Some? <==> obj.Some? && key in obj.value && obj.value[key].JArr?
    ensures r.Some? ==> r.value == obj.value[key].items
  {
    if obj.Some? && key in obj.value && obj.value[key].JArr? then Some(obj.value[key].items) else None
  }

  /** `obj?.optString(key)`: null only when the parent object is. */
  function OptString(obj: Option<JsonObject>, key: string): (r: Option<string>)
    ensures r.Some? <==> obj.Some?
    ensures r.Some? ==> r.value == OptStringOf(obj.value, key)
  {
    if obj.Some? then Some(OptStringOf(obj.value, key)) else None
  }

  /** `obj?.optBoolean(key)`. */
  function OptBoolean(obj: Option<JsonObject>, key: string): (r: Option<bool>)
    ensures r.Some? <==> obj.Some?
    ensures r.Some? ==> r.value == OptBooleanOf(obj.value, key)
  {
    if obj.Some? then Some(OptBooleanOf(obj.value, key)) else None
  }

  /** `obj?.optInt(key)`. */
  function OptInt(obj: Option<JsonObject>, key: string): (r: Option<Int32>)
    ensures r.Some? <==> obj.Some?
    ensures r.Some? ==> r.value == OptIntOf(obj.value, key)
  {
    if obj.Some? then Some(OptIntOf(obj.value, key)) else None
  }

  /** `optString` of a boolean or a number is text that reads back as that value. */
  lemma OptStringOfScalar(obj: JsonObject, key: string)
    requires key in obj
    ensures obj[key].JBool? ==> (OptStringOf(obj, key) == "true" <==> obj[key].b)
                                && (OptStringOf(obj, key) == "false" <==> !obj[key].b)
    ensures obj[key].JInt? ==> SignedDecimal(OptStringOf(obj, key)) == Some(obj[key].i)
  {
    if obj[key].JInt? {
      SignedDecimalOfToDecimal(obj[key].i);
    }
  }

  /**
   * `optInt` of a number: within 64 bits its low 32 bits, congruent to it modulo 2^32;
   * beyond 64 bits it saturates.
   */
  lemma OptIntOfNumber(obj: JsonObject, key: string)
    requires key in obj && obj[key].JInt?
    ensures LONG_MIN <= obj[key].i <= LONG_MAX ==> (OptIntOf(obj, key) - obj[key].i) % 0x1_0000_0000 == 0
    ensures obj[key].i > LONG_MAX ==> OptIntOf(obj, key) == INT_MAX
    ensures obj[key].i < LONG_MIN ==> OptIntOf(obj, key) == INT_MIN
  {
  }

  /**
   * `optInt` of a string: an optional sign and digits give their value, clamped to
   * the `Int` range; a string of any other form, a boolean, null, an array or an
   * object gives 0.
   */
  lemma OptIntOfText(obj: JsonObject, key: string)
    requires key in obj && !obj[key].JInt?
    ensures obj[key].JStr? && SignedDecimal(obj[key].s).Some? ==>
      var n := SignedDecimal(obj[key].s).value;
      && (n >= INT_MAX ==> OptIntOf(obj, key) == INT_MAX)
      && (n <= INT_MIN ==> OptIntOf(obj, key) == INT_MIN)
      && (INT_MIN <= n <= INT_MAX ==> OptIntOf(obj, key) == n)
    ensures !(obj[key].JStr? && SignedDecimal(obj[key].s).Some?) ==> OptIntOf(obj, key) == 0
  {
  }
}
