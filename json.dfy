/** Decoded JSON values and the few JavaScript semantics the formatter applies to them: property
    lookup, truthiness, the string conversion a template literal or `String(v)` performs,
    `Object.entries`, and the completion of an evaluation that may throw a TypeError. */
module Json {
  import opened Wrappers
  import opened Strings

  /** A value produced by `JSON.parse`. An object keeps its members in property order: keys that
      are array indices first, in ascending order, then the other keys in the order they were
      created. */
  datatype Json =
    | JNull
    | JBool(b: bool)
    | JNum(n: real)
    | JString(s: string)
    | JArray(items: seq<Json>)
    | JObject(fields: seq<(string, Json)>)

  /** The result of evaluating code that may throw: either normal completion with a value, or a
      thrown TypeError (reading a property of null or undefined, calling a method a value does not
      have, iterating a value that is not iterable). */
  datatype Completion<+T> = Normal(value: T) | Throw

  /** Appends the text of two evaluations made one after the other; a throw in either is a throw
      of the whole. */
  function Then(a: Completion<string>, b: Completion<string>): (r: Completion<string>)
    ensures r.Normal? <==> a.Normal? && b.Normal?
    ensures r.Normal? ==> r.value == a.value + b.value
  {
    match (a, b)
    case (Normal(x), Normal(y)) => Normal(x + y)
    case _ => Throw
  }

  /** Operations of the JavaScript engine the formatter calls but whose results only matter
      through how they are cut: the JSON decoder (None when it throws), the compact and the
      two-space-indented encoder, `String(number)`, `(v / 1000).toFixed(1)`, `number.toFixed(4)`
      and `v.toLocaleString()`. */
  datatype Host = Host(
    parse: string -> Option<Json>,
    stringify: Json -> string,
    pretty: Json -> string,
    numberText: real -> string,
    seconds: Json -> string,
    fixed4: real -> string,
    locale: Json -> string)

  /** Where the first member named `key` stands; `|fields|` when there is none. */
  function IndexOfKey(fields: seq<(string, Json)>, key: string): (k: nat)
    ensures k <= |fields|
    ensures forall i :: 0 <= i < k ==> fields[i].0 != key
    ensures k < |fields| ==> fields[k].0 == key
  {
    if fields == [] then 0
    else if fields[0].0 == key then 0
    else IndexOfKey(fields[1..], key) + 1
  }

  /** The value of the first member named `key`. */
  function Lookup(fields: seq<(string, Json)>, key: string): (r: Option<Json>)
    ensures r.None? <==> forall i :: 0 <= i < |fields| ==> fields[i].0 != key
    ensures r.Some? ==> exists i :: 0 <= i < |fields| && fields[i] == (key, r.value)
  {
    var k := IndexOfKey(fields, key);
    if k < |fields| then Some(fields[k].1) else None
  }

  /** `v[key]` on a value that is not null: only objects have the members the formatter reads;
      anything else gives `undefined`, written None. */
  function Get(v: Json, key: string): Option<Json> {
    match v
    case JObject(fields) => Lookup(fields, key)
    case _ => None
  }

  /** JavaScript truthiness of a value that may be `undefined` (None). */
  predicate Truthy(v: Option<Json>) {
    match v
    case None => false
    case Some(JNull) => false
    case Some(JBool(b)) => b
    case Some(JNum(n)) => n != 0.0
    case Some(JString(s)) => s != []
    case Some(JArray(_)) => true
    case Some(JObject(_)) => true
  }

  /** `v` is the string `s`: JavaScript `v === s`. */
  predicate IsString(v: Option<Json>, s: string) {
    v == Some(JString(s))
  }

  /** `String(v)` for a decoded value. An array converts through `join(',')`, where null
      elements become empty; an object becomes "[object Object]". */
  function Stringified(host: Host, v: Json): string
    decreases v
  {
    match v
    case JNull => "null"
    case JBool(b) => if b then "true" else "false"
    case JNum(n) => host.numberText(n)
    case JString(s) => s
    case JArray(items) =>
      Join(seq(|items|, i requires 0 <= i < |items| =>
                 if items[i].JNull? then [] else Stringified(host, items[i])), ",")
    case JObject(_) => "[object Object]"
  }

  /** Whether converting `v` to a primitive throws. A decoded object that has a member named
      "toString" hides `Object.prototype.toString` behind a value that is not a function, and
      `valueOf` gives back the object itself, so `String(v)`, `${v}` and `v / 1000` throw a
      TypeError. An array converts its elements that are not null, so it throws when one of them
      does. */
  predicate ToStringThrows(v: Json)
    decreases v
  {
    match v
    case JObject(fields) => Lookup(fields, "toString").Some?
    case JArray(items) => exists i :: 0 <= i < |items| && ToStringThrows(items[i])
    case _ => false
  }

  /** Whether converting a value that may be `undefined` to text throws. */
  predicate ConversionThrows(v: Option<Json>) {
    v.Some? && ToStringThrows(v.value)
  }

  /** Whether `v.toLocaleString()` throws: an object's own "toLocaleString" member is not a
      function, and without one `Object.prototype.toLocaleString` calls the object's `toString`;
      an array calls `toLocaleString` on each element that is not null. */
  predicate LocaleThrows(v: Json)
    decreases v
  {
    match v
    case JObject(fields) => Lookup(fields, "toLocaleString").Some? || Lookup(fields, "toString").Some?
    case JArray(items) => exists i :: 0 <= i < |items| && LocaleThrows(items[i])
    case _ => false
  }

  /** What `${v}` writes for a value that may be `undefined`, or the TypeError it throws. */
  function TemplateText(host: Host, v: Option<Json>): (r: Completion<string>)
    ensures r.Throw? <==> v.Some? && ToStringThrows(v.value)
    ensures v.None? ==> r == Normal("undefined")
    ensures v.Some? && v.value.JString? ==> r == Normal(v.value.s)
    ensures v.Some? && v.value.JObject? && r.Normal? ==> r.value == "[object Object]"
  {
    match v
    case None => Normal("undefined")
    case Some(j) => if ToStringThrows(j) then Throw else Normal(Stringified(host, j))
  }

  /** `${v || fallback}`: the fallback text when `v` is falsy. */
  function TextOr(host: Host, v: Option<Json>, fallback: string): (r: Completion<string>)
    ensures !Truthy(v) ==> r == Normal(fallback)
    ensures Truthy(v) ==> r == TemplateText(host, v)
  {
    if Truthy(v) then TemplateText(host, v) else Normal(fallback)
  }

  /** `Object.entries(v)` for a value that is not null: an object's members, an array's or a
      string's elements under their decimal indices, and nothing for a number or a boolean. */
  function Entries(v: Json): (r: seq<(string, Json)>)
    ensures v.JObject? ==> r == v.fields
    ensures v.JArray? ==> |r| == |v.items| && forall i :: 0 <= i < |r| ==> r[i] == (NatToString(i), v.items[i])
    ensures v.JString? ==> |r| == |v.s| && forall i :: 0 <= i < |r| ==> r[i] == (NatToString(i), JString([v.s[i]]))
    ensures v.JNum? || v.JBool? || v.JNull? ==> r == []
  {
    match v
    case JObject(fields) => fields
    case JArray(items) => seq(|items|, i requires 0 <= i < |items| => (NatToString(i), items[i]))
    case JString(s) => seq(|s|, i requires 0 <= i < |s| => (NatToString(i), JString([s[i]])))
    case _ => []
  }

  /** The elements a `for...of` loop visits. Arrays give their elements and strings their
      characters; any other value that reaches such a loop (a number, `true`, an object) is not
      iterable and throws. */
  function Iterate(v: Json): (r: Completion<seq<Json>>)
    ensures v.JArray? ==> r == Normal(v.items)
    ensures v.JString? ==> r.Normal? && |r.value| == |v.s|
    ensures v.JString? ==> forall i :: 0 <= i < |v.s| ==> r.value[i] == JString([v.s[i]])
    ensures !v.JArray? && !v.JString? ==> r == Throw
  {
    match v
    case JArray(items) => Normal(items)
    case JString(s) => Normal(seq(|s|, i requires 0 <= i < |s| => JString([s[i]])))
    case _ => Throw
  }
}
