/** What the other modules ask of a JSON library and of a codec can be met: a
    printer of JSON texts, and decoders that invert it. */
module JsonText {
  import opened Text
  import opened JsonValues
  import opened Sse

  /** Whole numbers and all strings. */
  const WHOLE: Range := Range((n: real) => n.Floor as real == n, (s: string) => true)

  // ---------- printing ----------

  function Digit(n: nat): char
    requires n < 16
  {
    "0123456789abcdef"[n]
  }

  function Digits(n: nat): string {
    if n < 10 then [Digit(n)] else Digits(n / 10) + [Digit(n % 10)]
  }

  function PrintInt(n: int): string {
    if n < 0 then "-" + Digits(-n) else Digits(n)
  }

  function Escaped(c: char): string {
    if c == '"' || c == '\\' then ['\\', c]
    else if c < ' ' then "\\u00" + [Digit(c as int / 16), Digit(c as int % 16)]
    else [c]
  }

  function Body(s: string): string {
    if s == "" then "" else Escaped(s[0]) + Body(s[1..])
  }

  function Quoted(s: string): string {
    "\"" + (Body(s) + "\"")
  }

  /** The texts of an array's elements, and what closes it. */
  function PrintList(texts: seq<string>): string {
    if texts == [] then "]" else texts[0] + (if |texts| == 1 then "]" else "," + PrintList(texts[1..]))
  }

  /** The key that comes first. */
  ghost function Pick(keys: set<string>): (key: string)
    requires keys != {}
    ensures key in keys
  {
    var key :| key in keys;
    key
  }

  ghost function PrintMembers(texts: map<string, string>): string
    decreases |texts|
  {
    if texts == map[] then "}"
    else
      var key := Pick(texts.Keys);
      Quoted(key) + (":" + (texts[key] + (if |texts| == 1 then "}" else "," + PrintMembers(texts - {key}))))
  }

  ghost function Print(j: Json): string {
    match j
    case JNull => "null"
    case JBool(b) => if b then "true" else "false"
    case JNumber(n) => PrintInt(n.Floor)
    case JString(s) => Quoted(s)
    case JArray(items) => "[" + PrintList(seq(|items|, i requires 0 <= i < |items| => Print(items[i])))
    case JObject(fields) => "{" + PrintMembers(map key | key in fields :: Print(fields[key]))
  }

  // ---------- strings and numbers are delimited ----------

  lemma EscapedApart(c: char, d: char, x: string, y: string)
    requires Escaped(c) + x == Escaped(d) + y
    ensures c == d && x == y
  {
    EscapedLong(c, x);
    EscapedLong(d, y);
    if |Escaped(c)| == 6 {
      DigitsTell(c as int / 16, d as int / 16);
      DigitsTell(c as int % 16, d as int % 16);
      assert c as int == c as int / 16 * 16 + c as int % 16;
    }
  }

  /** The text behind an escaped character. */
  lemma EscapedLong(c: char, x: string)
    ensures var t, n := Escaped(c) + x, |Escaped(c)|;
            && t[n..] == x && (n == 1 || n == 2 || n == 6) && (n == 1 <==> t[0] != '\\') && (n > 1 ==> (n == 6 <==> t[1] == 'u'))
            && (n == 1 ==> t[0] == c) && (n == 2 ==> t[1] == c)
            && (n == 6 ==> c < ' ' && t[4] == Digit(c as int / 16) && t[5] == Digit(c as int % 16))
  {
  }

  lemma DigitsTell(m: nat, n: nat)
    requires m < 16 && n < 16 && Digit(m) == Digit(n)
    ensures m == n
  {
  }

  /** The closing quote is the first one that is not escaped. */
  lemma BodyFirst(s: string, x: string)
    ensures var t := Body(s) + ("\"" + x); t != "" && (t[0] == '"' <==> s == "")
    ensures s == "" ==> (Body(s) + ("\"" + x))[1..] == x
  {
  }

  lemma {:induction false} BodyApart(s: string, t: string, x: string, y: string)
    requires Body(s) + ("\"" + x) == Body(t) + ("\"" + y)
    ensures s == t && x == y
    decreases |s|
  {
    BodyFirst(s, x);
    BodyFirst(t, y);
    if s != "" && t != "" {
      Assoc(Escaped(s[0]), Body(s[1..]), "\"" + x);
      Assoc(Escaped(t[0]), Body(t[1..]), "\"" + y);
      EscapedApart(s[0], t[0], Body(s[1..]) + ("\"" + x), Body(t[1..]) + ("\"" + y));
      BodyApart(s[1..], t[1..], x, y);
      assert s == [s[0]] + s[1..] && t == [t[0]] + t[1..];
    }
  }

  lemma QuotedApart(s: string, t: string, x: string, y: string)
    requires Quoted(s) + x == Quoted(t) + y
    ensures s == t && x == y
  {
    QuotedIs(s, x);
    QuotedIs(t, y);
    BodyApart(s, t, x, y);
  }

  lemma QuotedIs(s: string, x: string)
    ensures (Quoted(s) + x)[1..] == Body(s) + ("\"" + x)
  {
    assert Quoted(s) + x == "\"" + (Body(s) + ("\"" + x));
  }

  predicate IsDigit(c: char) {
    '0' <= c <= '9'
  }

  function Value(digits: string): int {
    if digits == "" then 0 else Value(digits[..|digits| - 1]) * 10 + (digits[|digits| - 1] as int - '0' as int)
  }

  predicate AllDigits(s: string) {
    forall i :: 0 <= i < |s| ==> IsDigit(s[i])
  }

  lemma OneMoreDigit(s: string, n: nat)
    requires AllDigits(s) && n < 10
    ensures AllDigits(s + [Digit(n)]) && Value(s + [Digit(n)]) == Value(s) * 10 + n
  {
    assert (s + [Digit(n)])[..|s|] == s;
  }

  lemma {:induction false} DigitsAre(n: nat)
    ensures Digits(n) != "" && AllDigits(Digits(n)) && Value(Digits(n)) == n
    decreases n
  {
    if n < 10 {
      OneMoreDigit("", n);
      assert "" + [Digit(n)] == Digits(n);
    } else {
      DigitsAre(n / 10);
      OneMoreDigit(Digits(n / 10), n % 10);
    }
  }

  /** What may follow a value. */
  predicate Ends(x: string) {
    x == "" || x[0] == ',' || x[0] == ']' || x[0] == '}'
  }

  lemma DigitsApart(m: nat, n: nat, x: string, y: string)
    requires Ends(x) && Ends(y) && Digits(m) + x == Digits(n) + y
    ensures m == n && x == y
  {
    DigitsAre(m);
    DigitsAre(n);
    SameFront(Digits(m), Digits(n), x, y);
  }

  lemma SameFront(a: string, b: string, x: string, y: string)
    requires Ends(x) && Ends(y) && a + x == b + y
    requires AllDigits(a) && AllDigits(b)
    ensures a == b && x == y
  {
    DigitsEnd(a, x);
    DigitsEnd(b, y);
    assert (a + x)[|a|..] == x && (b + y)[|b|..] == y;
  }

  lemma DigitsEnd(a: string, x: string)
    requires Ends(x) && AllDigits(a)
    ensures var s := a + x; (forall i :: 0 <= i < |a| ==> IsDigit(s[i])) && (|a| < |s| ==> !IsDigit(s[|a|])) && s[..|a|] == a
  {
  }

  lemma IntApart(m: int, n: int, x: string, y: string)
    requires Ends(x) && Ends(y) && PrintInt(m) + x == PrintInt(n) + y
    ensures m == n && x == y
  {
    SignTells(m, n, x, y);
    if m < 0 {
      BelowApart(m, n, x, y);
    } else {
      DigitsApart(m, n, x, y);
    }
  }

  lemma BelowApart(m: int, n: int, x: string, y: string)
    requires m < 0 && n < 0 && Ends(x) && Ends(y) && PrintInt(m) + x == PrintInt(n) + y
    ensures m == n && x == y
  {
    var p: nat, q: nat := -m, -n;
    Below(m, p);
    Below(n, q);
    NegativesApart(p, q, x, y);
  }

  lemma Below(n: int, size: nat)
    requires n < 0 && size == -n
    ensures PrintInt(n) == "-" + Digits(size)
  {
  }

  lemma SignTells(m: int, n: int, x: string, y: string)
    requires PrintInt(m) + x == PrintInt(n) + y
    ensures m < 0 <==> n < 0
  {
    IntFirst(m, x);
    IntFirst(n, y);
  }

  lemma NegativesApart(m: nat, n: nat, x: string, y: string)
    requires Ends(x) && Ends(y) && ("-" + Digits(m)) + x == ("-" + Digits(n)) + y
    ensures m == n && x == y
  {
    SignsOff(Digits(m), Digits(n), x, y);
    DigitsApart(m, n, x, y);
  }

  lemma SignsOff(a: string, b: string, x: string, y: string)
    requires ("-" + a) + x == ("-" + b) + y
    ensures a + x == b + y
  {
    After('-', a, x);
    After('-', b, y);
  }

  lemma IntFirst(n: int, x: string)
    ensures var t := PrintInt(n) + x; t != "" && (t[0] == '-' <==> n < 0) && (n >= 0 ==> IsDigit(t[0]))
  {
    if n < 0 {
      After('-', Digits(-n), x);
    } else {
      DigitsAre(n);
      assert (Digits(n) + x)[0] == Digits(n)[0];
    }
  }

  // ---------- values are delimited ----------

  /** How the texts of values begin. */
  predicate Begins(j: Json, c: char) {
    match j
    case JNull => c == 'n'
    case JBool(b) => c == if b then 't' else 'f'
    case JNumber(_) => c == '-' || IsDigit(c)
    case JString(_) => c == '"'
    case JArray(_) => c == '['
    case JObject(_) => c == '{'
  }

  lemma PrintBegins(j: Json)
    ensures Print(j) != "" && Begins(j, Print(j)[0])
  {
    if j.JNumber? {
      IntFirst(j.n.Floor, "");
      assert PrintInt(j.n.Floor) + "" == PrintInt(j.n.Floor);
    }
  }

  ghost predicate SamePrint(a: Json, b: Json, x: string, y: string) {
    Carries(WHOLE, a) && Carries(WHOLE, b) && Ends(x) && Ends(y) && Print(a) + x == Print(b) + y
  }

  /** No other text begins like the text of this value and something behind it. */
  ghost predicate Delimited(a: Json) {
    forall b, x, y :: SamePrint(a, b, x, y) ==> a == b && x == y
  }

  ghost function Texts(items: seq<Json>): (texts: seq<string>)
    ensures |texts| == |items|
  {
    seq(|items|, i requires 0 <= i < |items| => Print(items[i]))
  }

  lemma {:induction false} ListApart(a: seq<Json>, b: seq<Json>, x: string, y: string)
    requires (forall i :: 0 <= i < |a| ==> Delimited(a[i]) && Carries(WHOLE, a[i])) && forall i :: 0 <= i < |b| ==> Carries(WHOLE, b[i])
    requires PrintList(Texts(a)) + x == PrintList(Texts(b)) + y
    ensures a == b && x == y
    decreases |a|
  {
    ListFirst(a, x);
    ListFirst(b, y);
    if a != [] && b != [] {
      ListStep(a, b, x, y);
      RestParts(a, x);
      RestParts(b, y);
      if |a| > 1 && |b| > 1 {
        ListApart(a[1..], b[1..], x, y);
      }
      SameList(a, b);
    }
  }

  lemma SameList<T>(a: seq<T>, b: seq<T>)
    requires a != [] && b != [] && a[0] == b[0] && a[1..] == b[1..]
    ensures a == b
  {
    assert a == [a[0]] + a[1..] && b == [b[0]] + b[1..];
  }

  lemma ListStep(a: seq<Json>, b: seq<Json>, x: string, y: string)
    requires a != [] && b != [] && Delimited(a[0]) && Carries(WHOLE, a[0]) && Carries(WHOLE, b[0])
    requires PrintList(Texts(a)) + x == PrintList(Texts(b)) + y
    ensures a[0] == b[0] && ListRest(a) + x == ListRest(b) + y
  {
    ListFirst(a, x);
    ListFirst(b, y);
    SameValue(a[0], b[0], ListRest(a) + x, ListRest(b) + y);
  }

  lemma After(c: char, r: string, x: string)
    ensures var t := ([c] + r) + x; t != "" && t[0] == c && t[1..] == r + x
  {
    assert ([c] + r) + x == [c] + (r + x);
  }

  lemma RestParts(items: seq<Json>, x: string)
    requires items != []
    ensures var t := ListRest(items) + x;
            t != "" && (t[0] == ']' <==> |items| == 1) && t[1..] == if |items| == 1 then x else PrintList(Texts(items[1..])) + x
  {
    if |items| == 1 {
      After(']', "", x);
      assert "" + x == x;
    } else {
      After(',', PrintList(Texts(items[1..])), x);
    }
  }

  ghost function ListRest(items: seq<Json>): string
    requires items != []
  {
    if |items| == 1 then "]" else "," + PrintList(Texts(items[1..]))
  }

  lemma ListFirst(items: seq<Json>, x: string)
    ensures var t := PrintList(Texts(items)) + x; t != "" && (t[0] == ']' <==> items == []) && (items == [] ==> t[1..] == x)
    ensures items != [] ==> PrintList(Texts(items)) + x == Print(items[0]) + (ListRest(items) + x) && Ends(ListRest(items) + x)
  {
    if items != [] {
      PrintBegins(items[0]);
      assert Texts(items)[1..] == Texts(items[1..]);
      Assoc(Print(items[0]), ListRest(items), x);
    }
  }

  ghost function Members(fields: Fields): (texts: map<string, string>)
    ensures texts.Keys == fields.Keys
  {
    map key | key in fields :: Print(fields[key])
  }

  ghost function MembersRest(fields: Fields): string
    requires fields != map[]
  {
    if |fields| == 1 then "}" else "," + PrintMembers(Members(fields - {Pick(fields.Keys)}))
  }

  lemma MembersFirst(f: Fields, x: string)
    ensures var t := PrintMembers(Members(f)) + x; t != "" && (t[0] == '}' <==> f == map[]) && (f == map[] ==> t[1..] == x)
    ensures f != map[] ==>
              var key := Pick(f.Keys);
              PrintMembers(Members(f)) + x == Quoted(key) + (":" + (Print(f[key]) + (MembersRest(f) + x))) && Ends(MembersRest(f) + x)
  {
    if f != map[] {
      var key := Pick(f.Keys);
      assert |Members(f)| == |f| by { assert |Members(f).Keys| == |f.Keys|; }
      assert Members(f) - {key} == Members(f - {key});
      assert Members(f)[key] == Print(f[key]);
      assert PrintMembers(Members(f)) == Quoted(key) + (":" + (Print(f[key]) + MembersRest(f)));
      Assoc(Print(f[key]), MembersRest(f), x);
      Assoc(":", Print(f[key]) + MembersRest(f), x);
      Assoc(Quoted(key), ":" + (Print(f[key]) + MembersRest(f)), x);
      assert Members(f) != map[] by { assert key in Members(f); }
    } else {
      assert Members(f) == map[];
    }
  }

  lemma {:induction false} MembersApart(f: Fields, g: Fields, x: string, y: string)
    requires (forall key :: key in f ==> Delimited(f[key]) && Carries(WHOLE, f[key])) && forall key :: key in g ==> Carries(WHOLE, g[key])
    requires PrintMembers(Members(f)) + x == PrintMembers(Members(g)) + y
    ensures f == g && x == y
    decreases |f|
  {
    MembersFirst(f, x);
    MembersFirst(g, y);
    if f != map[] && g != map[] {
      var key := Pick(f.Keys);
      MembersStep(f, g, x, y);
      MembersParts(f, x);
      MembersParts(g, y);
      if |f| > 1 && |g| > 1 {
        MembersApart(f - {key}, g - {key}, x, y);
      }
      AllTogether(f, g, key);
    }
  }

  lemma AllTogether(f: Fields, g: Fields, key: string)
    requires key in f && key in g && f[key] == g[key]
    requires (|f| == 1 && |g| == 1) || f - {key} == g - {key}
    ensures f == g
  {
    OneMember(f, key);
    OneMember(g, key);
    Together(f, g, key);
  }

  lemma Together(f: Fields, g: Fields, key: string)
    requires key in f && key in g && f[key] == g[key] && f - {key} == g - {key}
    ensures f == g
  {
    assert f == (f - {key})[key := f[key]] && g == (g - {key})[key := g[key]];
  }

  lemma OneMember(f: Fields, key: string)
    requires key in f
    ensures |f| == 1 ==> f - {key} == map[]
  {
    if |f| == 1 {
      assert |f.Keys - {key}| == 0;
      assert (f - {key}).Keys == f.Keys - {key};
    }
  }

  lemma MembersStep(f: Fields, g: Fields, x: string, y: string)
    requires f != map[] && g != map[] && Delimited(f[Pick(f.Keys)]) && Carries(WHOLE, f[Pick(f.Keys)]) && Carries(WHOLE, g[Pick(g.Keys)])
    requires PrintMembers(Members(f)) + x == PrintMembers(Members(g)) + y
    ensures var key := Pick(f.Keys); Pick(g.Keys) == key && f[key] == g[key] && MembersRest(f) + x == MembersRest(g) + y
  {
    var k, k' := Pick(f.Keys), Pick(g.Keys);
    MembersFirst(f, x);
    MembersFirst(g, y);
    var u, v := Print(f[k]) + (MembersRest(f) + x), Print(g[k']) + (MembersRest(g) + y);
    QuotedApart(k, k', ":" + u, ":" + v);
    Behind(":", u, v);
    SameValue(f[k], g[k'], MembersRest(f) + x, MembersRest(g) + y);
  }

  lemma SameValue(a: Json, b: Json, x: string, y: string)
    requires Delimited(a) && SamePrint(a, b, x, y)
    ensures a == b && x == y
  {
  }

  lemma MembersParts(f: Fields, x: string)
    requires f != map[]
    ensures var t := MembersRest(f) + x;
            t != "" && (t[0] == '}' <==> |f| == 1) &&
            t[1..] == if |f| == 1 then x else PrintMembers(Members(f - {Pick(f.Keys)})) + x
  {
    if |f| == 1 {
      After('}', "", x);
      assert "" + x == x;
    } else {
      After(',', PrintMembers(Members(f - {Pick(f.Keys)})), x);
    }
  }

  /** Every value is delimited. */
  lemma {:induction false} AllDelimited(a: Json)
    requires Carries(WHOLE, a)
    ensures Delimited(a)
    decreases a
  {
    match a {
      case JArray(items) =>
        forall i | 0 <= i < |items| ensures Delimited(items[i]) {
          AllDelimited(items[i]);
        }
      case JObject(fields) =>
        forall key | key in fields ensures Delimited(fields[key]) {
          AllDelimited(fields[key]);
        }
      case _ =>
    }
    forall b, x, y | SamePrint(a, b, x, y) ensures a == b && x == y {
      SameBegin(a, b, x, y);
      SameKind(a, b, x, y);
    }
  }

  lemma SameBegin(a: Json, b: Json, x: string, y: string)
    requires SamePrint(a, b, x, y)
    ensures Print(b) != "" && Begins(a, Print(b)[0]) && Begins(b, Print(b)[0])
  {
    PrintBegins(a);
    PrintBegins(b);
    assert (Print(a) + x)[0] == Print(a)[0] && (Print(b) + y)[0] == Print(b)[0];
  }

  lemma SameKind(a: Json, b: Json, x: string, y: string)
    requires SamePrint(a, b, x, y) && Print(b) != "" && Begins(a, Print(b)[0]) && Begins(b, Print(b)[0])
    requires a.JArray? ==> forall i :: 0 <= i < |a.items| ==> Delimited(a.items[i])
    requires a.JObject? ==> forall key :: key in a.fields ==> Delimited(a.fields[key])
    ensures a == b && x == y
  {
    match a
    case JNull => Behind("null", x, y);
    case JBool(v) => Behind(Print(a), x, y);
    case JNumber(n) => IntApart(n.Floor, b.n.Floor, x, y);
    case JString(v) => QuotedApart(v, b.s, x, y);
    case JArray(items) => ArraysApart(items, b.items, x, y);
    case JObject(fields) => ObjectsApart(fields, b.fields, x, y);
  }

  lemma Behind(front: string, x: string, y: string)
    requires front + x == front + y
    ensures x == y
  {
    assert (front + x)[|front|..] == x && (front + y)[|front|..] == y;
  }

  lemma ArraysApart(items: seq<Json>, items': seq<Json>, x: string, y: string)
    requires SamePrint(JArray(items), JArray(items'), x, y) && forall i :: 0 <= i < |items| ==> Delimited(items[i])
    ensures items == items' && x == y
  {
    Assoc("[", PrintList(Texts(items)), x);
    Assoc("[", PrintList(Texts(items')), y);
    Behind("[", PrintList(Texts(items)) + x, PrintList(Texts(items')) + y);
    ListApart(items, items', x, y);
  }

  lemma PrintedObject(f: Fields, x: string)
    ensures Print(JObject(f)) + x == "{" + (PrintMembers(Members(f)) + x)
  {
    assert Members(f) == map key | key in f :: Print(f[key]);
    Assoc("{", PrintMembers(Members(f)), x);
  }

  lemma CarriedMembers(f: Fields)
    requires Carries(WHOLE, JObject(f))
    ensures forall key :: key in f ==> Carries(WHOLE, f[key])
  {
  }

  lemma ObjectsApart(f: Fields, g: Fields, x: string, y: string)
    requires SamePrint(JObject(f), JObject(g), x, y) && forall key :: key in f ==> Delimited(f[key])
    ensures f == g && x == y
  {
    PrintedObject(f, x);
    PrintedObject(g, y);
    CarriedMembers(f);
    CarriedMembers(g);
    Behind("{", PrintMembers(Members(f)) + x, PrintMembers(Members(g)) + y);
    MembersApart(f, g, x, y);
  }

  // ---------- printed text has no line break ----------

  lemma OneLineAppend(a: string, b: string)
    requires OneLine(a) && OneLine(b)
    ensures OneLine(a + b)
  {
  }

  lemma {:induction false} BodyOneLine(s: string)
    ensures OneLine(Body(s))
    decreases |s|
  {
    if s != "" {
      BodyOneLine(s[1..]);
      OneLineAppend(Escaped(s[0]), Body(s[1..]));
    }
  }

  lemma IntOneLine(n: int)
    ensures OneLine(PrintInt(n))
  {
    DigitsAre(if n < 0 then -n else n);
  }

  lemma {:induction false} ListOneLine(texts: seq<string>)
    requires forall i :: 0 <= i < |texts| ==> OneLine(texts[i])
    ensures OneLine(PrintList(texts))
    decreases |texts|
  {
    if |texts| > 1 {
      ListOneLine(texts[1..]);
      OneLineAppend(",", PrintList(texts[1..]));
    }
    if texts != [] {
      OneLineAppend(texts[0], if |texts| == 1 then "]" else "," + PrintList(texts[1..]));
    }
  }

  lemma {:induction false} MembersOneLine(texts: map<string, string>)
    requires forall key :: key in texts ==> OneLine(texts[key])
    ensures OneLine(PrintMembers(texts)) && PrintMembers(texts) != "" && PrintMembers(texts)[|PrintMembers(texts)| - 1] == '}'
    decreases |texts|
  {
    if texts != map[] {
      var key := Pick(texts.Keys);
      var rest := if |texts| == 1 then "}" else "," + PrintMembers(texts - {key});
      if |texts| > 1 {
        assert |texts.Keys - {key}| > 0;
        assert (texts - {key}).Keys == texts.Keys - {key};
        MembersOneLine(texts - {key});
        OneLineAppend(",", PrintMembers(texts - {key}));
      }
      MemberOneLine(key, texts[key], rest);
    }
  }

  lemma MemberOneLine(key: string, text: string, rest: string)
    requires OneLine(text) && OneLine(rest) && rest != ""
    ensures var t := Quoted(key) + (":" + (text + rest)); OneLine(t) && t != "" && t[|t| - 1] == rest[|rest| - 1]
  {
    BodyOneLine(key);
    OneLineAppend(Body(key), "\"");
    OneLineAppend("\"", Body(key) + "\"");
    OneLineAppend(text, rest);
    OneLineAppend(":", text + rest);
    OneLineAppend(Quoted(key), ":" + (text + rest));
  }

  lemma {:induction false} PrintOneLine(j: Json)
    ensures OneLine(Print(j))
    decreases j
  {
    match j
    case JNull =>
    case JBool(_) =>
    case JNumber(n) => IntOneLine(n.Floor);
    case JString(s) =>
      BodyOneLine(s);
      OneLineAppend(Body(s), "\"");
      OneLineAppend("\"", Body(s) + "\"");
    case JArray(items) =>
      forall i | 0 <= i < |items| ensures OneLine(Print(items[i])) {
        PrintOneLine(items[i]);
      }
      ListOneLine(Texts(items));
      OneLineAppend("[", PrintList(Texts(items)));
    case JObject(f) =>
      forall key | key in f ensures OneLine(Print(f[key])) {
        PrintOneLine(f[key]);
      }
      MembersOneLine(Members(f));
      OneLineAppend("{", PrintMembers(Members(f)));
  }

  /** An object's text begins and ends in a brace. */
  lemma PrintedTrimmed(f: Fields)
    ensures var t := Print(JObject(f)); Trimmed(t) && JsonTrim(t) == t && t != ""
  {
    forall key | key in f ensures OneLine(Members(f)[key]) {
      PrintOneLine(f[key]);
    }
    MembersOneLine(Members(f));
    PrintedObject(f, "");
    var t := Print(JObject(f));
    assert t + "" == t && PrintMembers(Members(f)) + "" == PrintMembers(Members(f));
    SolidEnds(t);
  }

  // ---------- a library and a codec ----------

  lemma PrintInjective(a: Json, b: Json)
    requires Carries(WHOLE, a) && Carries(WHOLE, b) && Print(a) == Print(b)
    ensures a == b
  {
    AllDelimited(a);
    assert Print(a) + "" == Print(a) && Print(b) + "" == Print(b);
    assert SamePrint(a, b, "", "");
  }

  ghost predicate Prints(j: Json, t: string) {
    Carries(WHOLE, j) && Print(j) == t
  }

  ghost function Parse(t: string): Option<Json> {
    if j :| Prints(j, t) then Some(j) else None
  }

  lemma ParsePrinted(j: Json)
    requires Carries(WHOLE, j)
    ensures Parse(Print(j)) == Some(j)
  {
    assert Prints(j, Print(j));
    PrintInjective(j, Parse(Print(j)).value);
  }

  lemma WholeIsProper()
    ensures Proper(WHOLE)
  {
  }

  lemma DoneIsNoJson(j: Json)
    ensures Print(j) != "[DONE]"
  {
    PrintBegins(j);
    if j.JArray? {
      ListFirst(j.items, "");
      var list := PrintList(Texts(j.items));
      assert list + "" == list && ("[" + list)[1] == list[0];
      if j.items != [] {
        PrintBegins(j.items[0]);
        assert list == Print(j.items[0]) + (ListRest(j.items) + "");
      }
    }
  }

  /** There is a codec that is faithful on all strings and whole numbers. */
  lemma CodecExists() returns (codec: Codec)
    ensures Faithful(codec) && codec.range == WHOLE
  {
    codec := Codec((j: Json) => Print(j), (t: string) => Parse(t), WHOLE);
    WholeIsProper();
    forall j: Json ensures Carries(WHOLE, j) ==> Parse(Print(j)) == Some(j) && OneLine(Print(j)) {
      PrintOneLine(j);
      if Carries(WHOLE, j) {
        ParsePrinted(j);
      }
    }
    forall j ensures !Prints(j, "[DONE]") {
      DoneIsNoJson(j);
    }
  }

  ghost function Decode(t: string): Option<Fields> {
    var parsed := Parse(JsonTrim(t));
    if parsed.Some? && parsed.value.JObject? then Some(parsed.value.fields) else None
  }

  lemma {:induction false} TrimmedOnce(s: string)
    ensures JsonTrim(JsonTrim(s)) == JsonTrim(s)
  {
    JsonLeftOnce(s);
    JsonRightOnce(JsonTrimLeft(s));
  }

  lemma {:induction false} JsonLeftOnce(s: string)
    ensures JsonTrimLeft(s) == "" || !IsJsonSpace(JsonTrimLeft(s)[0])
    decreases |s|
  {
    if s != "" && IsJsonSpace(s[0]) {
      JsonLeftOnce(s[1..]);
    }
  }

  lemma {:induction false} JsonRightOnce(s: string)
    ensures var t := JsonTrimRight(s); t <= s && (t == "" || !IsJsonSpace(t[|t| - 1])) && JsonTrimRight(t) == t
    decreases |s|
  {
    if s != "" && IsJsonSpace(s[|s| - 1]) {
      JsonRightOnce(s[..|s| - 1]);
    }
  }

  lemma DecodePrinted(f: Fields)
    requires Carries(WHOLE, JObject(f))
    ensures Decode(Print(JObject(f))) == Some(f)
  {
    PrintedTrimmed(f);
    ParsePrinted(JObject(f));
  }

  lemma DecodeIgnoresSpace(s: string)
    ensures Decode(s) == Decode(JsonTrim(s)) && (Decode(s).Some? ==> Trimmed(JsonTrim(s)) && Carries(WHOLE, JObject(Decode(s).value)))
  {
    TrimmedOnce(s);
    if Decode(s).Some? {
      PrintedTrimmed(Decode(s).value);
    }
  }

  ghost function TheLibrary(): Library {
    Library((t: string) => Decode(t), (j: Json) => Print(j), WHOLE)
  }

  lemma TheLibraryInverts()
    ensures Inverse(TheLibrary())
  {
    WholeIsProper();
    forall f: Fields ensures Carries(WHOLE, JObject(f)) ==> Decode(Print(JObject(f))) == Some(f) {
      if Carries(WHOLE, JObject(f)) {
        DecodePrinted(f);
      }
    }
    forall s: string ensures Decode(s).Some? ==> Carries(WHOLE, JObject(Decode(s).value)) {
      DecodeIgnoresSpace(s);
    }
  }

  lemma TheLibraryTrims()
    ensures IgnoresSpace(TheLibrary())
  {
    var lib := TheLibrary();
    forall s: string
      ensures lib.unmarshal(s) == lib.unmarshal(JsonTrim(s)) && (lib.unmarshal(s).Some? ==> Trimmed(JsonTrim(s)))
    {
      DecodeIgnoresSpace(s);
    }
  }

  lemma TheLibraryBraces()
    ensures Braced(TheLibrary())
  {
    assert Members(map[]) == map[];
    assert Print(JObject(map[])) == "{" + PrintMembers(Members(map[])) == "{}";
  }

  /** There is a library that decodes what it encodes and ignores white space. */
  lemma LibraryExists() returns (lib: Library)
    ensures Inverse(lib) && IgnoresSpace(lib) && Braced(lib) && lib.unmarshal("") == None && lib.range == WHOLE
  {
    lib := TheLibrary();
    TheLibraryInverts();
    TheLibraryTrims();
    TheLibraryBraces();
    if Decode("").Some? {
      PrintedTrimmed(Decode("").value);
    }
  }
}
