/** Display names: the normalisation of a tool name (verboseFormatter.js:30-33) and the
    humanised form of a parameter or field key (lines 49 and 207). Both replace underscores with
    spaces and upper-case the first character of every word, as `replace(/\b\w/g, toUpperCase)`
    does; a tool name first loses an "mcp__<server>__" namespace prefix. */
module Names {
  import opened Strings

  /** The regular-expression class `\w`. */
  predicate IsWordChar(c: char) {
    ('a' <= c <= 'z') || ('A' <= c <= 'Z') || IsDigit(c) || c == '_'
  }

  predicate IsLower(c: char) {
    'a' <= c <= 'z'
  }

  /** `toUpperCase()` on a character matched by `\w`: only ASCII letters change. */
  function Upper(c: char): (u: char)
    ensures !IsLower(u)
    ensures !IsLower(c) ==> u == c
    ensures IsWordChar(u) == IsWordChar(c)
  {
    if IsLower(c) then (c as int - 32) as char else c
  }

  /** Index `i` is where `\b\w` matches: a word character not preceded by one. */
  predicate IsWordStart(s: string, i: nat)
    requires i < |s|
  {
    IsWordChar(s[i]) && (i == 0 || !IsWordChar(s[i - 1]))
  }

  /** A name made of the namespace prefix "mcp__", a non-empty server name without underscores,
      the separator "__" and the tool's own name. */
  predicate IsMcpName(name: string, server: string, tool: string) {
    server != [] && '_' !in server && name == "mcp__" + server + "__" + tool
  }

  /** `name.replace(/^mcp__[^_]+__/, '')`: the run `[^_]+` stops at the first underscore after the
      prefix, and the match needs two underscores there. */
  function StripMcpPrefix(name: string): (r: string)
    ensures r == name || (|r| + 7 < |name| && IsMcpName(name, name[5..|name| - |r| - 2], r))
  {
    if StartsWith(name, "mcp__") then
      var rest := name[5..];
      var k := IndexOf(rest, '_');
      if 1 <= k && k + 1 < |rest| && rest[k + 1] == '_' then
        assert name == "mcp__" + rest[..k] + "__" + rest[k + 2..];
        rest[k + 2..]
      else name
    else name
  }

  /** The prefix is stripped from every name of that shape, so `StripMcpPrefix` changes a name
      exactly when it carries the prefix. */
  lemma StripsMcpName(name: string, server: string, tool: string)
    requires IsMcpName(name, server, tool)
    ensures StripMcpPrefix(name) == tool
  {
    var rest := name[5..];
    assert rest == server + "__" + tool;
    assert rest[..|server|] == server;
    assert rest[|server|] == '_';
    assert forall j :: 0 <= j < |server| ==> rest[j] == server[j];
  }

  /** `s.replace(/_/g, ' ')`. */
  function ReplaceUnderscores(s: string): (r: string)
    ensures |r| == |s| && '_' !in r
    ensures forall i :: 0 <= i < |s| && s[i] == '_' ==> r[i] == ' '
    ensures forall i :: 0 <= i < |s| && s[i] != '_' ==> r[i] == s[i]
  {
    seq(|s|, i requires 0 <= i < |s| => if s[i] == '_' then ' ' else s[i])
  }

  /** `s.replace(/\b\w/g, l => l.toUpperCase())`: every character where a word starts is
      upper-cased and every other character is kept. */
  function TitleCase(s: string): (r: string)
    ensures |r| == |s|
    ensures forall i :: 0 <= i < |s| ==> r[i] == if IsWordStart(s, i) then Upper(s[i]) else s[i]
  {
    seq(|s|, i requires 0 <= i < |s| => if IsWordStart(s, i) then Upper(s[i]) else s[i])
  }

  /** Title-casing keeps the word boundaries, so its result starts every word with a character
      that is not a lower-case letter. */
  lemma TitleCaseWordStarts(s: string)
    ensures forall i :: 0 <= i < |s| ==> (IsWordStart(TitleCase(s), i) <==> IsWordStart(s, i))
    ensures forall i :: 0 <= i < |s| && IsWordStart(TitleCase(s), i) ==> !IsLower(TitleCase(s)[i])
  {
  }

  /** Title-casing twice is title-casing once. */
  lemma TitleCaseIdempotent(s: string)
    ensures TitleCase(TitleCase(s)) == TitleCase(s)
  {
    var t := TitleCase(s);
    TitleCaseWordStarts(s);
    assert forall i :: 0 <= i < |t| ==> TitleCase(t)[i] == t[i];
  }

  /** The tool name shown after "Using tool:" (lines 30-33). */
  function ToolName(name: string): (r: string)
    ensures '_' !in r
    ensures |r| == |StripMcpPrefix(name)|
    ensures forall i :: 0 <= i < |r| && IsWordStart(r, i) ==> !IsLower(r[i])
  {
    var s := ReplaceUnderscores(StripMcpPrefix(name));
    TitleCaseWordStarts(s);
    var r := TitleCase(s);
    assert '_' !in r by {
      forall i | 0 <= i < |r| ensures r[i] != '_' {
        assert s[i] != '_';
      }
    }
    r
  }

  /** Normalising a normalised tool name changes nothing: there is no prefix left to strip, no
      underscore left to replace and no word left to capitalise. */
  lemma ToolNameIdempotent(name: string)
    ensures ToolName(ToolName(name)) == ToolName(name)
  {
    var t := ToolName(name);
    assert !StartsWith(t, "mcp__") by {
      if |t| >= 5 {
        assert t[..5][3] == t[3] != '_';
      }
    }
    assert ReplaceUnderscores(t) == t;
    var s := ReplaceUnderscores(StripMcpPrefix(name));
    TitleCaseIdempotent(s);
  }

  /** A key with underscores turned into spaces and its words capitalised (lines 49 and 207). */
  function HumanKey(key: string): (r: string)
    ensures |r| == |key| && '_' !in r
    ensures forall i :: 0 <= i < |r| && IsWordStart(r, i) ==> !IsLower(r[i])
  {
    var s := ReplaceUnderscores(key);
    TitleCaseWordStarts(s);
    var r := TitleCase(s);
    assert '_' !in r by {
      forall i | 0 <= i < |r| ensures r[i] != '_' {
        assert s[i] != '_';
      }
    }
    r
  }

  /** Humanising a key that holds no newline gives a name that holds none. */
  lemma HumanKeyOneLine(key: string)
    requires OneLine(key)
    ensures OneLine(HumanKey(key))
  {
    var s := ReplaceUnderscores(key);
    forall i | 0 <= i < |key| ensures HumanKey(key)[i] != '\n' {
      assert s[i] != '\n';
    }
  }
}
