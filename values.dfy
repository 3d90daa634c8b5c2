/** Summaries of decoded JSON values inside a tool result: one numbered line per list entry
    (`formatJsonItem`, verboseFormatter.js:267-282) and one bulleted line per object member
    (`formatKeyValue`, lines 285-309). */
module Values {
  import opened Wrappers
  import opened Strings
  import opened Json

  /** The members an object entry is summarised by, in the order they are tried. */
  const PreferredKeys: seq<string> := ["name", "title", "id", "email", "message", "text"]

  /** The keys whose member in `item` is truthy, in the order of `keys`. */
  function TruthyKeys(item: Json, keys: seq<string>): (r: seq<string>)
    ensures |r| <= |keys|
    ensures forall j :: 0 <= j < |r| ==> r[j] in keys && Truthy(Get(item, r[j]))
  {
    if keys == [] then []
    else
      var init, k := keys[..|keys| - 1], keys[|keys| - 1];
      assert keys == init + [k];
      TruthyKeys(item, init) + if Truthy(Get(item, k)) then [k] else []
  }

  /** The summary parts of lines 271-275: one per key whose member is truthy, in the order of
      `keys`, each the key and at most 50 leading characters of the member's text (see
      `SummaryIsParts`). */
  function Summary(host: Host, item: Json, keys: seq<string>): (r: seq<string>)
    ensures |r| == |TruthyKeys(item, keys)| <= |keys|
    ensures r == [] <==> forall k :: k in keys ==> !Truthy(Get(item, k))
  {
    if keys == [] then []
    else
      var init, k := keys[..|keys| - 1], keys[|keys| - 1];
      var r := Summary(host, item, init);
      assert keys == init + [k];
      if Truthy(Get(item, k)) then r + [k + ": " + Take(Stringified(host, Get(item, k).value), 50)]
      else r
  }

  /** Part j of the summary is the j-th truthy key with the text of its member. */
  lemma {:induction false} SummaryIsParts(host: Host, item: Json, keys: seq<string>)
    ensures |Summary(host, item, keys)| == |TruthyKeys(item, keys)|
    ensures forall j :: 0 <= j < |Summary(host, item, keys)| ==>
      Summary(host, item, keys)[j] ==
        TruthyKeys(item, keys)[j] + ": " + Take(Stringified(host, Get(item, TruthyKeys(item, keys)[j]).value), 50)
  {
    if keys != [] {
      var init, k := keys[..|keys| - 1], keys[|keys| - 1];
      SummaryIsParts(host, item, init);
    }
  }

  /** Each part names one of the keys and is at most 52 characters longer than the longest key. */
  lemma SummaryPartsNameKeys(host: Host, item: Json, keys: seq<string>)
    ensures forall i :: 0 <= i < |Summary(host, item, keys)| ==>
      exists k :: k in keys && StartsWith(Summary(host, item, keys)[i], k + ": ")
    ensures forall i :: 0 <= i < |Summary(host, item, keys)| ==>
      |Summary(host, item, keys)[i]| <= MaxKeyLength(keys) + 52
  {
    var r, ks := Summary(host, item, keys), TruthyKeys(item, keys);
    SummaryIsParts(host, item, keys);
    forall i | 0 <= i < |r|
      ensures exists k :: k in keys && StartsWith(r[i], k + ": ")
      ensures |r[i]| <= MaxKeyLength(keys) + 52
    {
      var k := ks[i];
      var text := Take(Stringified(host, Get(item, k).value), 50);
      assert r[i] == (k + ": ") + text;
      assert r[i][..|k + ": "|] == k + ": ";
      assert k in keys;
    }
  }

  /** The summary of one more key. */
  lemma SummarySnoc(host: Host, item: Json, keys: seq<string>, k: string)
    ensures Summary(host, item, keys + [k]) ==
      Summary(host, item, keys)
        + if Truthy(Get(item, k)) then [k + ": " + Take(Stringified(host, Get(item, k).value), 50)] else []
  {
    assert (keys + [k])[..|keys|] == keys;
  }

  /** The summary of a concatenation of key lists is the two summaries one after the other: the
      parts follow the order of the keys. */
  lemma {:induction false} SummaryAppend(host: Host, item: Json, a: seq<string>, b: seq<string>)
    ensures Summary(host, item, a + b) == Summary(host, item, a) + Summary(host, item, b)
  {
    if b == [] {
      assert a + b == a;
    } else {
      var init, last := b[..|b| - 1], b[|b| - 1];
      SplitLast(a, b);
      SummaryAppend(host, item, a, init);
      SummarySnoc(host, item, a + init, last);
      SummarySnoc(host, item, init, last);
    }
  }

  /** The length of the longest key. */
  function MaxKeyLength(keys: seq<string>): (m: nat)
    ensures forall k :: k in keys ==> |k| <= m
  {
    if keys == [] then 0
    else
      var init, last := keys[..|keys| - 1], keys[|keys| - 1];
      assert keys == init + [last];
      var m := MaxKeyLength(init);
      if |last| > m then |last| else m
  }

  /** "   <index>. " */
  function ItemPrefix(index: nat): string {
    "   " + NatToString(index) + ". "
  }

  /** `formatJsonItem(item, index)`: an object or an array is summarised by its preferred members,
      or, when it has none, by the first 100 characters of its JSON; any other value by the first
      100 characters of `String(item)`. */
  function JsonItem(host: Host, item: Json, index: nat): (r: string)
    ensures StartsWith(r, ItemPrefix(index)) && r[|r| - 1] == '\n'
    ensures item.JObject? && Summary(host, item, PreferredKeys) != [] ==>
      r == ItemPrefix(index) + Join(Summary(host, item, PreferredKeys), ", ") + "\n"
    ensures (item.JObject? || item.JArray?) && Summary(host, item, PreferredKeys) == [] ==>
      r == ItemPrefix(index) + Take(host.stringify(item), 100) + "\n"
    ensures !item.JObject? && !item.JArray? ==>
      r == ItemPrefix(index) + Take(Stringified(host, item), 100) + "\n"
    ensures !item.JObject? && !item.JArray? ==> |r| <= |ItemPrefix(index)| + 101
    ensures item.JArray? ==> |r| <= |ItemPrefix(index)| + 101
  {
    var prefix := ItemPrefix(index);
    var body :=
      if item.JObject? || item.JArray? then
        var summary := Summary(host, item, PreferredKeys);
        if |summary| > 0 then Join(summary, ", ") else Take(host.stringify(item), 100)
      else Take(Stringified(host, item), 100);
    assert item.JArray? ==> Summary(host, item, PreferredKeys) == [];
    var r := prefix + body + "\n";
    assert r[..|prefix|] == prefix;
    r
  }

  /** A first key whose member is truthy gives the first part of the summary. */
  lemma SummaryStartsWithFirstKey(host: Host, item: Json, keys: seq<string>)
    requires |keys| >= 1 && Truthy(Get(item, keys[0]))
    ensures |Summary(host, item, keys)| >= 1
    ensures Summary(host, item, keys)[0] ==
      keys[0] + ": " + Take(Stringified(host, Get(item, keys[0]).value), 50)
    ensures Get(item, keys[0]).value.JString? ==>
      Summary(host, item, keys)[0] == keys[0] + ": " + Take(Get(item, keys[0]).value.s, 50)
  {
    var k := keys[0];
    assert keys == [k] + keys[1..];
    SummaryAppend(host, item, [k], keys[1..]);
    assert [k][..0] == [];
  }

  lemma JoinStartsWithFirst(parts: seq<string>, sep: string)
    requires |parts| >= 1
    ensures StartsWith(Join(parts, sep), parts[0])
  {
    if |parts| > 1 {
      assert Join(parts, sep) == parts[0] + (sep + Join(parts[1..], sep));
    }
  }

  /** An object whose `name` is a non-empty string is listed by its name first. */
  lemma JsonItemLeadsWithName(host: Host, item: Json, index: nat, s: string)
    requires item.JObject? && Get(item, "name") == Some(JString(s)) && s != []
    ensures StartsWith(JsonItem(host, item, index), ItemPrefix(index) + ("name: " + Take(s, 50)))
  {
    SummaryStartsWithFirstKey(host, item, PreferredKeys);
    var parts := Summary(host, item, PreferredKeys);
    JoinStartsWithFirst(parts, ", ");
    StartsWithInside(ItemPrefix(index), Join(parts, ", "), "\n", parts[0]);
    var name := PreferredKeys[0];
    assert name + ": " == "name: ";
    assert parts[0] == name + ": " + Take(s, 50);
    assert JsonItem(host, item, index) == ItemPrefix(index) + Join(parts, ", ") + "\n";
  }

  /** `formattedValue` of `formatKeyValue` (lines 286-306). */
  function ValueText(host: Host, value: Json): (r: string)
    ensures value.JNull? ==> r == "null"
    ensures value.JBool? ==> r == if value.b then "✓" else "✗"
    ensures value.JNum? ==> r == host.locale(value)
    ensures value.JString? ==> |r| >= 2 && r[0] == '"' && r[|r| - 1] == '"' && |r| <= 102
    ensures value.JString? && |value.s| <= 100 ==> r[1..|r| - 1] == value.s
    ensures value.JString? && |value.s| > 100 ==> r[1..|r| - 1] == value.s[..97] + "..."
    ensures value.JArray? ==> r == "[" + NatToString(|value.items|) + " items]"
    ensures value.JObject? ==> r == "{" + NatToString(|value.fields|) + " fields}"
  {
    match value
    case JNull => "null"
    case JBool(b) => if b then "✓" else "✗"
    case JNum(_) => host.locale(value)
    case JString(s) =>
      var cut := Cut(s, 97, 100);
      var r := "\"" + cut + "\"";
      assert r[1..|r| - 1] == cut;
      r
    case JArray(items) => "[" + NatToString(|items|) + " items]"
    case JObject(fields) => "{" + NatToString(|fields|) + " fields}"
  }

  /** `formatKeyValue(key, value)`: "      • <key>: <value>" and a newline. */
  function KeyValue(host: Host, key: string, value: Json): (r: string)
    ensures StartsWith(r, "      • " + key + ": ") && r[|r| - 1] == '\n'
    ensures r[|"      • " + key + ": "|..|r| - 1] == ValueText(host, value)
  {
    "      • " + key + ": " + ValueText(host, value) + "\n"
  }

  /** A member whose key and value text hold no newline renders as exactly one line. */
  lemma KeyValueIsOneLine(host: Host, key: string, value: Json)
    requires '\n' !in key
    requires value.JString? ==> '\n' !in value.s
    requires value.JNum? ==> '\n' !in host.locale(value)
    ensures Split(KeyValue(host, key, value), '\n') == [KeyValue(host, key, value)[..|KeyValue(host, key, value)| - 1], []]
  {
    var r := KeyValue(host, key, value);
    var line := r[..|r| - 1];
    var v := ValueText(host, value);
    assert '\n' !in v by {
      if value.JString? {
        var cut := Cut(value.s, 97, 100);
        assert v[1..|v| - 1] == cut;
        forall i | 0 <= i < |v| ensures v[i] != '\n' {
          if 0 < i < |v| - 1 {
            assert v[i] == cut[i - 1];
            if |value.s| > 100 {
              assert cut[..97] == value.s[..97];
              if i - 1 < 97 {
                assert cut[i - 1] == value.s[i - 1];
              } else {
                assert cut[97..] == "...";
                assert cut[i - 1] == "..."[i - 1 - 97];
              }
            }
          }
        }
      } else if value.JArray? {
        assert forall i :: 0 <= i < |NatToString(|value.items|)| ==> IsDigit(NatToString(|value.items|)[i]);
      } else if value.JObject? {
        assert forall i :: 0 <= i < |NatToString(|value.fields|)| ==> IsDigit(NatToString(|value.fields|)[i]);
      }
    }
    assert line == "      • " + key + ": " + v;
    assert '\n' !in line;
    SplitUnlines([line]);
    assert Unlines([line]) == r;
  }
}
