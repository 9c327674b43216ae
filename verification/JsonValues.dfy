/** Decoded JSON, and the JSON library as a pair of functions. */
module JsonValues {
  import opened Text

  datatype Json =
    | JNull
    | JBool(b: bool)
    | JNumber(n: real)
    | JString(s: string)
    | JArray(items: seq<Json>)
    | JObject(fields: map<string, Json>)

  type Fields = map<string, Json>

  /** The numbers and the strings that JSON text carries. Not every real number is
      one that a decoder yields, and bytes that are no UTF-8 are replaced. */
  datatype Range = Range(number: real -> bool, text: string -> bool)

  ghost predicate Carries(range: Range, j: Json) {
    match j
    case JNull => true
    case JBool(_) => true
    case JNumber(n) => range.number(n)
    case JString(s) => range.text(s)
    case JArray(items) => forall i :: 0 <= i < |items| ==> Carries(range, items[i])
    case JObject(fields) => forall k :: k in fields ==> range.text(k) && Carries(range, fields[k])
  }

  /** ASCII text is carried, and what is carried still is when it is trimmed. */
  ghost predicate Proper(range: Range) {
    (forall s :: Ascii(s) ==> range.text(s)) && (forall s :: range.text(s) ==> range.text(TrimSpace(s)))
  }

  /** json.Unmarshal of a text into a map, None on error, and json.Marshal. */
  datatype Library = Library(unmarshal: string -> Option<Fields>, marshal: Json -> string, range: Range)

  /** Decoding inverts encoding on the objects that are carried, and yields no others. */
  ghost predicate Inverse(lib: Library) {
    && Proper(lib.range)
    && (forall f: Fields :: Carries(lib.range, JObject(f)) ==> lib.unmarshal(lib.marshal(JObject(f))) == Some(f))
    && (forall s :: lib.unmarshal(s).Some? ==> Carries(lib.range, JObject(lib.unmarshal(s).value)))
  }

  /** Whitespace of section 2 of RFC 8259. */
  predicate IsJsonSpace(c: char) {
    c == ' ' || c == '\t' || c == '\n' || c == '\r'
  }

  function JsonTrimLeft(s: string): string {
    if s != [] && IsJsonSpace(s[0]) then JsonTrimLeft(s[1..]) else s
  }

  function JsonTrimRight(s: string): string {
    if s != [] && IsJsonSpace(s[|s| - 1]) then JsonTrimRight(s[..|s| - 1]) else s
  }

  function JsonTrim(s: string): string {
    JsonTrimRight(JsonTrimLeft(s))
  }

  /** The decoder ignores JSON whitespace around a value, and what is left must
      neither begin nor end in whitespace of any other kind. */
  ghost predicate IgnoresSpace(lib: Library) {
    forall s: string :: lib.unmarshal(s) == lib.unmarshal(JsonTrim(s)) &&
                        (lib.unmarshal(s).Some? ==> Trimmed(JsonTrim(s)))
  }

  /** The encoder writes an object in braces, and the empty one as nothing else. */
  ghost predicate Braced(lib: Library) {
    && lib.marshal(JObject(map[])) == "{}"
    && forall f: Fields :: Carries(lib.range, JObject(f)) ==> lib.marshal(JObject(f)) != "" && lib.marshal(JObject(f))[0] == '{'
  }

  // ---------- white space around a value ----------

  lemma {:induction false} JsonLeftThenLeft(s: string)
    ensures TrimLeft(JsonTrimLeft(s)) == TrimLeft(s)
  {
    if s != [] && IsJsonSpace(s[0]) {
      JsonLeftThenLeft(s[1..]);
    }
  }

  lemma {:induction false} JsonRightThenRight(s: string)
    ensures TrimRight(JsonTrimRight(s)) == TrimRight(s)
  {
    if s != [] && IsJsonSpace(s[|s| - 1]) {
      JsonRightThenRight(s[..|s| - 1]);
    }
  }

  lemma {:induction false} LeftOfRight(s: string)
    ensures TrimSpace(JsonTrimRight(s)) == TrimSpace(s)
    decreases |s|
  {
    if s != [] && IsJsonSpace(s[|s| - 1]) {
      var front, last := s[..|s| - 1], s[|s| - 1..];
      LeftOfRight(front);
      assert last[1..] == "";
      TrimSpaceRun(front, last);
      assert s == front + last;
    }
  }

  lemma JsonTrimThenTrim(s: string)
    ensures TrimSpace(JsonTrim(s)) == TrimSpace(s)
  {
    LeftOfRight(JsonTrimLeft(s));
    JsonLeftThenLeft(s);
  }

  /** An encoded object decodes to itself, trimmed as well. */
  lemma TrimmedDecodes(lib: Library, f: Fields)
    requires Inverse(lib) && IgnoresSpace(lib) && Carries(lib.range, JObject(f))
    ensures lib.unmarshal(TrimSpace(lib.marshal(JObject(f)))) == Some(f)
  {
    var text := lib.marshal(JObject(f));
    assert lib.unmarshal(text) == Some(f) && lib.unmarshal(JsonTrim(text)) == Some(f);
    JsonTrimThenTrim(text);
    TrimmedIsItself(JsonTrim(text));
  }

  // ---------- objects that are carried ----------

  lemma PutCarried(range: Range, fields: Fields, key: string, value: Json)
    requires Proper(range) && Ascii(key) && Carries(range, JObject(fields)) && Carries(range, value)
    ensures Carries(range, JObject(fields[key := value]))
  {
  }

  lemma OneCarried(range: Range, k: string, v: Json)
    requires Proper(range) && Ascii(k) && Carries(range, v)
    ensures Carries(range, JObject(map[k := v]))
  {
  }

  lemma TwoCarried(range: Range, k1: string, v1: Json, k2: string, v2: Json)
    requires Proper(range) && Ascii(k1) && Ascii(k2) && Carries(range, v1) && Carries(range, v2)
    ensures Carries(range, JObject(map[k1 := v1, k2 := v2]))
  {
    OneCarried(range, k1, v1);
    PutCarried(range, map[k1 := v1], k2, v2);
  }

  lemma ThreeCarried(range: Range, k1: string, v1: Json, k2: string, v2: Json, k3: string, v3: Json)
    requires Proper(range) && Ascii(k1) && Ascii(k2) && Ascii(k3) && Carries(range, v1) && Carries(range, v2) && Carries(range, v3)
    ensures Carries(range, JObject(map[k1 := v1, k2 := v2, k3 := v3]))
  {
    TwoCarried(range, k1, v1, k2, v2);
    PutCarried(range, map[k1 := v1, k2 := v2], k3, v3);
  }

  lemma FiveMoreCarried(range: Range, f: Fields, k1: string, v1: Json, k2: string, v2: Json, k3: string, v3: Json,
                        k4: string, v4: Json, k5: string, v5: Json)
    requires Proper(range) && Carries(range, JObject(f)) && Ascii(k1) && Ascii(k2) && Ascii(k3) && Ascii(k4) && Ascii(k5)
    requires Carries(range, v1) && Carries(range, v2) && Carries(range, v3) && Carries(range, v4) && Carries(range, v5)
    ensures Carries(range, JObject(f[k1 := v1][k2 := v2][k3 := v3][k4 := v4][k5 := v5]))
  {
    PutCarried(range, f, k1, v1);
    PutCarried(range, f[k1 := v1], k2, v2);
    PutCarried(range, f[k1 := v1][k2 := v2], k3, v3);
    PutCarried(range, f[k1 := v1][k2 := v2][k3 := v3], k4, v4);
    PutCarried(range, f[k1 := v1][k2 := v2][k3 := v3][k4 := v4], k5, v5);
  }
}
