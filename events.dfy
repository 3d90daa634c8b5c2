/** The dispatcher `formatVerboseOutput` (verboseFormatter.js lines 1-168). One line of the agent
    process's trace becomes a display string, or None, which tells the caller to skip the event.
    A line that does not decode, and every TypeError raised while an event is rendered, ends in
    the `catch` of lines 164-167 and gives None as well. Each evaluation that may throw is a
    `Completion`; a loop that appends the rendering of every element is `Each`. */
module Events {
  import opened Wrappers
  import opened Strings
  import opened Json
  import opened Names
  import Payload

  // ---------------------------------------------------------------------------------------------
  // Loops over decoded lists

  /** `for (const x of xs) output += render(x);` from an empty output: the pieces in order, or a
      throw as soon as one piece throws. */
  function Each(render: Json -> Completion<string>, xs: seq<Json>): Completion<string> {
    if xs == [] then Normal([])
    else Then(Each(render, xs[..|xs| - 1]), render(xs[|xs| - 1]))
  }

  lemma ThenAssoc(a: Completion<string>, b: Completion<string>, c: Completion<string>)
    ensures Then(Then(a, b), c) == Then(a, Then(b, c))
  {
    if a.Normal? && b.Normal? && c.Normal? {
      ConcatAssoc(a.value, b.value, c.value);
    }
  }

  /** Rendering a list in two parts renders the second after the first: an element is rendered
      whatever the elements before it rendered, as long as none of them threw. */
  lemma {:induction false} EachAppend(render: Json -> Completion<string>, a: seq<Json>, b: seq<Json>)
    ensures Each(render, a + b) == Then(Each(render, a), Each(render, b))
  {
    if b == [] {
      assert a + b == a;
      if Each(render, a).Normal? {
        assert Each(render, a).value + [] == Each(render, a).value;
      }
    } else {
      var init := b[..|b| - 1];
      EachAppend(render, a, init);
      assert (a + b)[..|a + b| - 1] == a + init;
      assert (a + b)[|a + b| - 1] == b[|b| - 1];
      ThenAssoc(Each(render, a), Each(render, init), render(b[|b| - 1]));
    }
  }

  /** One element that throws makes the whole loop throw. */
  lemma {:induction false} EachThrows(render: Json -> Completion<string>, xs: seq<Json>, i: nat)
    requires i < |xs| && render(xs[i]) == Throw
    ensures Each(render, xs) == Throw
  {
    EachAppend(render, xs[..i + 1], xs[i + 1..]);
    assert xs[..i + 1] + xs[i + 1..] == xs;
    assert xs[..i + 1][..i] == xs[..i];
  }

  // ---------------------------------------------------------------------------------------------
  // System initialisation (lines 6-8)

  const SystemHead := "🔧 System initialized\n   Session: "

  function SystemText(host: Host, data: Json): Completion<string> {
    Then(Then(Normal(SystemHead), TemplateText(host, Get(data, "session_id"))),
         Then(Normal("\n   Model: "), TemplateText(host, Get(data, "model"))))
  }

  /** The system line names the session and the model, and throws exactly when one of them is a
      value whose conversion to text throws. */
  lemma SystemTextThrows(host: Host, data: Json)
    ensures SystemText(host, data).Throw? <==>
      ConversionThrows(Get(data, "session_id")) || ConversionThrows(Get(data, "model"))
    ensures SystemText(host, data).Normal? ==>
      StartsWith(SystemText(host, data).value, SystemHead + TemplateText(host, Get(data, "session_id")).value)
    ensures SystemText(host, data).Normal? ==>
      SystemText(host, data).value ==
        SystemHead + TemplateText(host, Get(data, "session_id")).value
          + "\n   Model: " + TemplateText(host, Get(data, "model")).value
  {
    var session := TemplateText(host, Get(data, "session_id"));
    if SystemText(host, data).Normal? {
      var out := SystemText(host, data).value;
      assert out == (SystemHead + session.value) + ("\n   Model: " + TemplateText(host, Get(data, "model")).value);
      assert out[..|SystemHead + session.value|] == SystemHead + session.value;
    }
  }

  // ---------------------------------------------------------------------------------------------
  // Assistant turns (lines 11-77)

  const ClaudeLabel := "💭 Claude:"

  /** A text item (lines 18-27): text of one line follows the label; longer text is written below
      it, one indented line per line of the text, blank lines included. */
  function ClaudeText(text: string): string {
    var lines := Split(text, '\n');
    if |lines| == 1 then "\n" + (ClaudeLabel + " " + text) + "\n"
    else "\n" + ClaudeLabel + "\n" + Unlines(MapLines(Payload.Indent, lines))
  }

  /** A text that splits into one part holds no newline. */
  lemma {:induction false} SinglePartHasNoNewline(text: string)
    requires |Split(text, '\n')| == 1
    ensures '\n' !in text
  {
    JoinSplit(text, '\n');
    assert text == Split(text, '\n')[0];
  }

  lemma {:induction false} OneLineTextIsUnlines(text: string)
    requires |Split(text, '\n')| == 1
    ensures ClaudeText(text) == Unlines([[], ClaudeLabel + " " + text])
  {
    var line := ClaudeLabel + " " + text;
    NewlineAround(line);
  }

  lemma NewlineAround(line: string)
    ensures Unlines([[], line]) == "\n" + line + "\n"
  {
    UnlinesPair([], line);
    assert [] + "\n" == "\n";
  }

  /** A text of one line shares the label's output line. */
  lemma {:induction false} OneLineText(text: string)
    requires |Split(text, '\n')| == 1
    ensures Split(ClaudeText(text), '\n') == [[], ClaudeLabel + " " + text, []]
  {
    OneLineTextIsUnlines(text);
    SinglePartHasNoNewline(text);
    var out: seq<string> := [[], ClaudeLabel + " " + text];
    assert forall i :: 0 <= i < |out| ==> '\n' !in out[i];
    SplitUnlines(out);
  }

  /** Every line of a longer text is one output line of its own below the label, indented and
      in order, blank lines included. */
  lemma {:induction false} ManyLineText(text: string)
    requires |Split(text, '\n')| > 1
    ensures Split(ClaudeText(text), '\n') == [[], ClaudeLabel] + MapLines(Payload.Indent, Split(text, '\n')) + [[]]
  {
    var lines := Split(text, '\n');
    var top: seq<string> := [[], ClaudeLabel];
    var shown := MapLines(Payload.Indent, lines);
    assert forall i :: 0 <= i < |shown| ==> '\n' !in shown[i] by {
      forall i | 0 <= i < |shown| ensures '\n' !in shown[i] {
        assert shown[i] == "   " + lines[i];
      }
    }
    var all := top + shown;
    assert forall i :: 0 <= i < |all| ==> '\n' !in all[i] by {
      assert '\n' !in ClaudeLabel;
      forall i | 2 <= i < |all| ensures '\n' !in all[i] {
        assert all[i] == shown[i - 2];
      }
    }
    assert Unlines(all) == ClaudeText(text) by {
      UnlinesAppend(top, shown);
      UnlinesPair([], ClaudeLabel);
      assert Unlines(top) == "\n" + ClaudeLabel + "\n";
    }
    SplitUnlines(all);
  }

  /** The filter of lines 40-46: the `user_google_email` parameter, null values and the empty
      string are dropped. (`undefined` does not occur among decoded members.) */
  predicate Keep(entry: (string, Json)) {
    entry.0 != "user_google_email" && !entry.1.JNull? && entry.1 != JString([])
  }

  /** `entries.filter(Keep)`. */
  function Kept(entries: seq<(string, Json)>): (r: seq<(string, Json)>)
    ensures |r| <= |entries|
    ensures forall e :: e in r <==> e in entries && Keep(e)
  {
    if entries == [] then []
    else
      var init, last := entries[..|entries| - 1], entries[|entries| - 1];
      assert entries == init + [last];
      Kept(init) + if Keep(last) then [last] else []
  }

  /** The filter keeps the survivors in input order: filtering two parts one after the other is
      filtering the whole. */
  lemma {:induction false} KeptAppend(a: seq<(string, Json)>, b: seq<(string, Json)>)
    ensures Kept(a + b) == Kept(a) + Kept(b)
  {
    if b == [] {
      assert a + b == a;
    } else {
      var init, last := b[..|b| - 1], b[|b| - 1];
      var tail := if Keep(last) then [last] else [];
      KeptAppend(a, init);
      assert (a + b)[..|a + b| - 1] == a + init;
      assert (a + b)[|a + b| - 1] == last;
      assert Kept(a + b) == Kept(a + init) + tail;
      assert Kept(b) == Kept(init) + tail;
    }
  }

  /** The value shown for one parameter (lines 50-63): a string of more than 80 characters is
      quoted and cut to 77 characters and "..."; an object or array is its compact JSON, cut the
      same way when longer than 80; anything else is its compact JSON. */
  function ParamValue(host: Host, v: Json): (r: string)
    ensures v.JString? && |v.s| > 80 ==> |r| == 82 && r[0] == '"' && r[1..78] == v.s[..77] && r[78..] == "...\""
    ensures v.JArray? || v.JObject? ==> |r| <= 80
    ensures (v.JArray? || v.JObject?) && |host.stringify(v)| <= 80 ==> r == host.stringify(v)
    ensures (v.JArray? || v.JObject?) && |host.stringify(v)| > 80 ==>
      (|r| == 80 && r[..77] == host.stringify(v)[..77] && r[77..] == "...")
    ensures !v.JArray? && !v.JObject? && !(v.JString? && |v.s| > 80) ==> r == host.stringify(v)
  {
    if v.JString? && |v.s| > 80 then "\"" + Cut(v.s, 77, 80) + "\""
    else if v.JArray? || v.JObject? then Cut(host.stringify(v), 77, 80)
    else host.stringify(v)
  }

  function ParamLine(host: Host, entry: (string, Json)): string {
    "   → " + HumanKey(entry.0) + ": " + ParamValue(host, entry.1)
  }

  function ParamLines(host: Host, entries: seq<(string, Json)>): (r: seq<string>)
    ensures |r| == |entries| && forall i :: 0 <= i < |r| ==> r[i] == ParamLine(host, entries[i])
  {
    seq(|entries|, i requires 0 <= i < |entries| => ParamLine(host, entries[i]))
  }

  /** `Object.entries(input).filter(...).map(...).join('\n')`. */
  function ParamText(host: Host, input: Json): string {
    Join(ParamLines(host, Kept(Entries(input))), "\n")
  }

  /** The parameter text is empty exactly when no parameter survives the filter. */
  lemma ParamTextEmpty(host: Host, input: Json)
    ensures ParamText(host, input) == [] <==> Kept(Entries(input)) == []
  {
    var lines := ParamLines(host, Kept(Entries(input)));
    if |lines| > 1 {
      assert ParamText(host, input) == lines[0] + "\n" + Join(lines[1..], "\n");
    }
  }

  /** Parameters whose keys and shown values hold no newline come out one line each, in input
      order. */
  lemma ParamsOneLineEach(host: Host, input: Json)
    requires Kept(Entries(input)) != []
    requires forall e :: e in Kept(Entries(input)) ==> '\n' !in e.0 && '\n' !in ParamValue(host, e.1)
    ensures Split(ParamText(host, input), '\n') == ParamLines(host, Kept(Entries(input)))
  {
    var kept := Kept(Entries(input));
    var lines := ParamLines(host, kept);
    forall i | 0 <= i < |lines| ensures '\n' !in lines[i] {
      assert kept[i] in kept;
      HumanKeyOneLine(kept[i].0);
      OneLineIff(HumanKey(kept[i].0));
      assert lines[i] == "   → " + HumanKey(kept[i].0) + ": " + ParamValue(host, kept[i].1);
    }
    SplitJoin(lines, '\n');
  }

  /** A tool_use item (lines 28-67): the normalised tool name, then the surviving parameters.
      `content.name.replace(...)` throws unless the name is a string. */
  function ToolUseText(host: Host, content: Json): Completion<string> {
    match Get(content, "name")
    case Some(JString(name)) =>
      var head := "\n🔧 Using tool: " + ToolName(name) + "\n";
      var input := Get(content, "input");
      if Truthy(input) && |Entries(input.value)| > 0 then
        var params := ParamText(host, input.value);
        Normal(if params != [] then head + params + "\n" else head)
      else Normal(head)
    case _ => Throw
  }

  /** A tool_use item whose parameters are all dropped writes the tool line alone. */
  lemma NoParamsNoLines(host: Host, content: Json, name: string)
    requires Get(content, "name") == Some(JString(name))
    requires Truthy(Get(content, "input")) ==> Kept(Entries(Get(content, "input").value)) == []
    ensures ToolUseText(host, content) == Normal("\n🔧 Using tool: " + ToolName(name) + "\n")
  {
    var input := Get(content, "input");
    if Truthy(input) {
      ParamTextEmpty(host, input.value);
    }
  }

  /** One element of `msg.content` in an assistant turn (lines 17-69). */
  function AssistantItem(host: Host, content: Json): Completion<string> {
    if content.JNull? then Throw
    else
      var kind := Get(content, "type");
      if IsString(kind, "text") then
        match Get(content, "text")
        case Some(JString(text)) => Normal(ClaudeText(text))
        case _ => Throw
      else if IsString(kind, "tool_use") then ToolUseText(host, content)
      else Normal([])
  }

  function AssistantItemOf(host: Host): Json -> Completion<string> {
    content => AssistantItem(host, content)
  }

  /** The output of an assistant turn whose `message` is truthy (lines 12-76). */
  function AssistantText(host: Host, msg: Json): Completion<string> {
    var items := Get(msg, "content");
    if !Truthy(items) then Normal([])
    else
      match Iterate(items.value)
      case Throw => Throw
      case Normal(xs) => Each(AssistantItemOf(host), xs)
  }

  // ---------------------------------------------------------------------------------------------
  // Tool results (lines 79-130)

  /** The tag of lines 91-93: the first eight characters of a truthy `tool_use_id`;
      `substring` throws unless the id is a string. */
  function ToolTag(id: Option<Json>): (r: Completion<string>)
    ensures !Truthy(id) ==> r == Normal([])
    ensures Truthy(id) && id.value.JString? ==>
      (r.Normal? && 3 <= |r.value| <= 11 && r.value[..2] == " [" && r.value[|r.value| - 1] == ']'
       && r.value[2..|r.value| - 1] <= id.value.s
       && |r.value| == 3 + (if |id.value.s| < 8 then |id.value.s| else 8))
    ensures Truthy(id) && !id.value.JString? ==> r == Throw
  {
    if !Truthy(id) then Normal([])
    else
      match id.value
      case JString(s) =>
        var t := Take(s, 8);
        var r := " [" + t + "]";
        assert r[..2] == " [" && r[2..|r| - 1] == t;
        Normal(r)
      case _ => Throw
  }

  /** The lines of an error result (lines 97-100). */
  function ErrorLines(host: Host, content: Json): Completion<string> {
    var details := Get(content, "error_details");
    Then(Then(Then(Normal("   ❌ Error: "), TextOr(host, Get(content, "error"), "Unknown error")), Normal("\n")),
         if Truthy(details) then Then(Then(Normal("   Details: "), TemplateText(host, details)), Normal("\n"))
         else Normal([]))
  }

  /** One element of a tool result's `content` list (lines 106-121). */
  function ResultItem(host: Host, item: Json): Completion<string> {
    if item.JNull? then Throw
    else
      var kind := Get(item, "type");
      var text := Get(item, "text");
      if IsString(kind, "text") && Truthy(text) then
        match text.value
        case JString(s) => Normal(Payload.ToolResultText(host, Trim(s)))
        case _ => Throw
      else if IsString(kind, "image") then Normal("   📷 [Image content]\n")
      else if IsString(kind, "document") then
        var name := Get(item, "name");
        Then(Then(Normal("   📄 [Document: "), TextOr(host, name, "unnamed")), Normal("]\n"))
      else
        Then(Then(Normal("   \U{2139}\U{FE0F} ["), TemplateText(host, kind)),
             Normal("]: " + Take(host.stringify(item), 100) + "\n"))
  }

  function ResultItemOf(host: Host): Json -> Completion<string> {
    item => ResultItem(host, item)
  }

  /** The body of a tool result that is not an error (lines 105-126): a list is rendered element
      by element, any other truthy value as indented pretty-printed JSON. */
  function ResultBody(host: Host, body: Option<Json>): Completion<string> {
    if !Truthy(body) then Normal([])
    else if body.value.JArray? then Each(ResultItemOf(host), body.value.items)
    else Normal("   " + Join(Split(host.pretty(body.value), '\n'), "\n   ") + "\n")
  }

  function ResultHead(id: Option<Json>): Completion<string> {
    Then(Then(Normal("\n📊 Tool Result"), ToolTag(id)), Normal(":\n"))
  }

  /** A `tool_result` element (lines 87-126). */
  function ToolResultBlock(host: Host, content: Json): Completion<string> {
    var head := ResultHead(Get(content, "tool_use_id"));
    if Truthy(Get(content, "is_error")) then Then(head, ErrorLines(host, content))
    else Then(head, ResultBody(host, Get(content, "content")))
  }

  /** An error result never looks at its content: two error results that agree on their id,
      error and details render the same. */
  lemma ErrorResultSkipsContent(host: Host, content: Json, other: Json)
    requires Truthy(Get(content, "is_error")) && Truthy(Get(other, "is_error"))
    requires Get(content, "tool_use_id") == Get(other, "tool_use_id")
    requires Get(content, "error") == Get(other, "error")
    requires Get(content, "error_details") == Get(other, "error_details")
    ensures ToolResultBlock(host, content) == ToolResultBlock(host, other)
  {
  }

  /** The error lines throw exactly when the error or the details cannot be converted to text,
      whatever text the others give. */
  lemma ErrorLinesThrows(host: Host, content: Json)
    ensures ErrorLines(host, content).Throw? <==>
      ConversionThrows(Get(content, "error")) || ConversionThrows(Get(content, "error_details"))
  {
  }

  /** An error result writes one error line, naming "Unknown error" when the result names no
      error, and a Details line exactly when it has details; it throws exactly when the error or
      the details cannot be converted to text. */
  lemma ErrorLinesShape(host: Host, content: Json)
    requires TextOr(host, Get(content, "error"), "Unknown error").Normal? ==>
      '\n' !in TextOr(host, Get(content, "error"), "Unknown error").value
    requires TemplateText(host, Get(content, "error_details")).Normal? ==>
      '\n' !in TemplateText(host, Get(content, "error_details")).value
    ensures ErrorLines(host, content).Throw? <==>
      ConversionThrows(Get(content, "error")) || ConversionThrows(Get(content, "error_details"))
    ensures ErrorLines(host, content).Normal? ==>
      var lines := Split(ErrorLines(host, content).value, '\n');
      && lines[0] == "   ❌ Error: " + TextOr(host, Get(content, "error"), "Unknown error").value
      && (Truthy(Get(content, "error_details")) ==> |lines| == 3 && StartsWith(lines[1], "   Details: "))
      && (!Truthy(Get(content, "error_details")) ==> |lines| == 2)
  {
    var error := TextOr(host, Get(content, "error"), "Unknown error");
    var details := Get(content, "error_details");
    if ErrorLines(host, content).Normal? {
      var first := "   ❌ Error: " + error.value;
      UnlinesOne(first);
      if Truthy(details) {
        var second := "   Details: " + TemplateText(host, details).value;
        UnlinesOne(second);
        UnlinesAppend([first], [second]);
        assert [first] + [second] == [first, second];
        assert ErrorLines(host, content).value == Unlines([first, second]);
        SplitUnlines([first, second]);
        assert second[..|"   Details: "|] == "   Details: ";
      } else {
        assert ErrorLines(host, content).value == Unlines([first]);
        SplitUnlines([first]);
      }
    }
  }

  /** One element of `msg.content` in a user event: only `tool_result` elements write. */
  function UserItem(host: Host, content: Json): Completion<string> {
    if content.JNull? then Throw
    else if IsString(Get(content, "type"), "tool_result") then ToolResultBlock(host, content)
    else Normal([])
  }

  function UserItemOf(host: Host): Json -> Completion<string> {
    content => UserItem(host, content)
  }

  /** The accumulated output of a user event whose `message` is truthy (lines 81-127). */
  function UserText(host: Host, msg: Json): Completion<string> {
    var items := Get(msg, "content");
    if !Truthy(items) then Normal([])
    else
      match Iterate(items.value)
      case Throw => Throw
      case Normal(xs) => Each(UserItemOf(host), xs)
  }

  // ---------------------------------------------------------------------------------------------
  // Final result (lines 133-155)

  /** `total_cost_usd.toFixed(4)` throws unless the cost is a number. */
  function CostText(host: Host, cost: Option<Json>): Completion<string> {
    if !Truthy(cost) then Normal([])
    else if cost.value.JNum? then Normal(" - Cost: $" + host.fixed4(cost.value.n))
    else Throw
  }

  /** `(duration_ms / 1000).toFixed(1)`: the division converts the duration to a number, which
      throws where its conversion to text does. */
  function SecondsText(host: Host, duration: Option<Json>): Completion<string> {
    if !Truthy(duration) then Normal([])
    else if ToStringThrows(duration.value) then Throw
    else Normal(" (" + host.seconds(duration.value) + "s)")
  }

  /** `tokens_used.toLocaleString()`. */
  function TokensText(host: Host, tokens: Option<Json>): Completion<string> {
    if !Truthy(tokens) then Normal([])
    else if LocaleThrows(tokens.value) then Throw
    else Normal(" - Tokens: " + host.locale(tokens.value))
  }

  function OutcomeText(host: Host, data: Json): Completion<string> {
    if Truthy(Get(data, "is_error")) then
      var code := Get(data, "error_code");
      Then(Then(Normal("\n❌ Error: "), TextOr(host, Get(data, "result"), "Unknown error")),
           if Truthy(code) then Then(Then(Normal(" (Code: "), TemplateText(host, code)), Normal(")"))
           else Normal([]))
    else
      Then(Then(Then(Normal("\n✅ Success"), SecondsText(host, Get(data, "duration_ms"))),
                CostText(host, Get(data, "total_cost_usd"))),
           TokensText(host, Get(data, "tokens_used")))
  }

  /** An error result fails to render exactly when its result or its code cannot be converted to
      text; a success fails exactly when its truthy duration cannot be divided, its truthy cost is
      not a number or its truthy token count has no locale text. An error result never shows a
      cost, a duration or a token count. */
  lemma OutcomeThrows(host: Host, data: Json)
    ensures Truthy(Get(data, "is_error")) ==>
      (OutcomeText(host, data).Throw? <==>
         ConversionThrows(Get(data, "result")) || ConversionThrows(Get(data, "error_code")))
    ensures !Truthy(Get(data, "is_error")) ==>
      (OutcomeText(host, data).Throw? <==>
         || ConversionThrows(Get(data, "duration_ms"))
         || (Truthy(Get(data, "total_cost_usd")) && !Get(data, "total_cost_usd").value.JNum?)
         || (Truthy(Get(data, "tokens_used")) && LocaleThrows(Get(data, "tokens_used").value)))
    ensures Truthy(Get(data, "is_error")) && OutcomeText(host, data).Normal? ==>
      StartsWith(OutcomeText(host, data).value, "\n❌ Error: ")
    ensures !Truthy(Get(data, "is_error")) && OutcomeText(host, data).Normal? ==>
      StartsWith(OutcomeText(host, data).value, "\n✅ Success")
  {
  }

  // ---------------------------------------------------------------------------------------------
  // Dispatch (lines 1-168)

  const Handled: seq<string> := ["system", "assistant", "user", "result"]

  /** `['system', 'assistant', 'user', 'result'].includes(type)`. */
  predicate IsHandled(kind: Option<Json>) {
    kind.Some? && kind.value.JString? && kind.value.s in Handled
  }

  const UnknownPrefix := "\n🔍 ["

  function UnknownText(host: Host, data: Json): Completion<string> {
    Then(Then(Normal(UnknownPrefix), TemplateText(host, Get(data, "type"))),
         Normal("] " + Take(host.stringify(data), 100)))
  }

  /** The event `data` decoded from the line, in the order of the source's tests. A user event
      whose output is empty falls through to the later tests, which its type never meets. */
  function Dispatch(host: Host, data: Json): Completion<Option<string>> {
    if data.JNull? then Throw
    else
      var kind := Get(data, "type");
      var message := Get(data, "message");
      if IsString(kind, "system") && IsString(Get(data, "subtype"), "init") then
        match SystemText(host, data)
        case Throw => Throw
        case Normal(text) => Normal(Some(text))
      else if IsString(kind, "assistant") && Truthy(message) then
        match AssistantText(host, message.value)
        case Throw => Throw
        case Normal(output) => Normal(Some(output))
      else
        var user := if IsString(kind, "user") && Truthy(message) then UserText(host, message.value) else Normal([]);
        match user
        case Throw => Throw
        case Normal(output) =>
          if output != [] then Normal(Some(TrimEnd(output)))
          else if IsString(kind, "result") then
            match OutcomeText(host, data)
            case Throw => Throw
            case Normal(text) => Normal(Some(text))
          else if Truthy(kind) && !IsHandled(kind) then
            match UnknownText(host, data)
            case Throw => Throw
            case Normal(text) => Normal(Some(text))
          else Normal(None)
  }

  /** `formatVerboseOutput(jsonLine)`: None for a line that does not decode and for any event
      whose rendering throws. */
  function VerboseOutput(host: Host, jsonLine: string): Option<string> {
    match host.parse(jsonLine)
    case None => None
    case Some(data) =>
      match Dispatch(host, data)
      case Throw => None
      case Normal(r) => r
  }

  /** The events that are skipped: a line that is not JSON, an event without a truthy type, and
      a system, assistant or user event that none of the three branches renders. */
  lemma SkippedEvents(host: Host, jsonLine: string)
    ensures host.parse(jsonLine).None? ==> VerboseOutput(host, jsonLine).None?
    ensures host.parse(jsonLine).Some? && !Truthy(Get(host.parse(jsonLine).value, "type")) ==>
      VerboseOutput(host, jsonLine).None?
    ensures (host.parse(jsonLine).Some? && IsString(Get(host.parse(jsonLine).value, "type"), "system")
             && !IsString(Get(host.parse(jsonLine).value, "subtype"), "init"))
            ==> VerboseOutput(host, jsonLine).None?
    ensures (host.parse(jsonLine).Some? && IsString(Get(host.parse(jsonLine).value, "type"), "assistant")
             && !Truthy(Get(host.parse(jsonLine).value, "message")))
            ==> VerboseOutput(host, jsonLine).None?
    ensures (host.parse(jsonLine).Some? && IsString(Get(host.parse(jsonLine).value, "type"), "user")
             && (!Truthy(Get(host.parse(jsonLine).value, "message"))
                 || UserText(host, Get(host.parse(jsonLine).value, "message").value) == Normal([])))
            ==> VerboseOutput(host, jsonLine).None?
  {
  }

  /** An assistant turn that writes nothing still gives the empty string, not None, while a user
      event that writes nothing is skipped. */
  lemma EmptyAssistantIsKept(host: Host, jsonLine: string, data: Json)
    requires host.parse(jsonLine) == Some(data)
    requires IsString(Get(data, "type"), "assistant") && Truthy(Get(data, "message"))
    requires AssistantText(host, Get(data, "message").value) == Normal([])
    ensures VerboseOutput(host, jsonLine) == Some([])
  {
  }

  /** Any other truthy type gives one line naming the type, followed by at most 100 characters
      of the event's compact JSON, unless the type cannot be converted to text. */
  lemma UnknownTypeShown(host: Host, jsonLine: string, data: Json)
    requires host.parse(jsonLine) == Some(data)
    requires Truthy(Get(data, "type")) && !IsHandled(Get(data, "type"))
    ensures VerboseOutput(host, jsonLine).Some? <==> !ToStringThrows(Get(data, "type").value)
    ensures VerboseOutput(host, jsonLine).Some? ==>
      var out := VerboseOutput(host, jsonLine).value;
      var head := UnknownPrefix + TemplateText(host, Get(data, "type")).value + "] ";
      && StartsWith(out, head)
      && |out| <= |head| + 100
      && out[|head|..] <= host.stringify(data)
  {
    var kind := Get(data, "type");
    assert !IsString(kind, "system") && !IsString(kind, "assistant") && !IsString(kind, "user") && !IsString(kind, "result") by {
      assert "system" in Handled && "assistant" in Handled && "user" in Handled && "result" in Handled;
    }
    if !ToStringThrows(kind.value) {
      var head := UnknownPrefix + TemplateText(host, kind).value + "] ";
      var out := UnknownText(host, data).value;
      assert out == head + Take(host.stringify(data), 100);
      assert out[|head|..] == Take(host.stringify(data), 100);
    }
  }

  // ---------------------------------------------------------------------------------------------
  // The loops

  /** The `forEach` of lines 24-26 sits in the text branch. */
  method FormatAssistantItem(host: Host, content: Json) returns (r: Completion<string>)
    ensures r == AssistantItem(host, content)
  {
    if content.JNull? {
      return Throw;
    }
    var kind := Get(content, "type");
    if IsString(kind, "text") {
      var text := Get(content, "text");
      if !(text.Some? && text.value.JString?) {
        return Throw;
      }
      var lines := Split(text.value.s, '\n');
      var output: string;
      if |lines| == 1 {
        output := "\n" + (ClaudeLabel + " " + text.value.s) + "\n";
      } else {
        output := "\n" + ClaudeLabel + "\n";
        output := Payload.AppendLines(Payload.Indent, output, lines);
      }
      assert output == ClaudeText(text.value.s);
      r := Normal(output);
    } else if IsString(kind, "tool_use") {
      r := ToolUseText(host, content);
    } else {
      r := Normal([]);
    }
  }

  /** The `for...of` of lines 16-71. */
  method FormatAssistant(host: Host, msg: Json) returns (r: Completion<string>)
    ensures r == AssistantText(host, msg)
  {
    var items := Get(msg, "content");
    if !Truthy(items) {
      return Normal([]);
    }
    var xs := Iterate(items.value);
    if xs.Throw? {
      return Throw;
    }
    var output := "";
    var i := 0;
    while i < |xs.value|
      invariant i <= |xs.value|
      invariant Each(AssistantItemOf(host), xs.value[..i]) == Normal(output)
    {
      var part := FormatAssistantItem(host, xs.value[i]);
      assert xs.value[..i + 1][..i] == xs.value[..i];
      if part.Throw? {
        EachThrows(AssistantItemOf(host), xs.value, i);
        return Throw;
      }
      output := output + part.value;
      i := i + 1;
    }
    assert xs.value[..i] == xs.value;
    r := Normal(output);
  }

  method FormatResultItem(host: Host, item: Json) returns (r: Completion<string>)
    ensures r == ResultItem(host, item)
  {
    if item.JNull? {
      return Throw;
    }
    var kind := Get(item, "type");
    var text := Get(item, "text");
    if IsString(kind, "text") && Truthy(text) {
      if !text.value.JString? {
        return Throw;
      }
      var output := Payload.FormatToolResultText(host, Trim(text.value.s));
      r := Normal(output);
    } else {
      r := ResultItem(host, item);
    }
  }

  /** The `for...of` of lines 106-121. */
  method FormatResultItems(host: Host, items: seq<Json>) returns (r: Completion<string>)
    ensures r == Each(ResultItemOf(host), items)
  {
    var output := "";
    var i := 0;
    while i < |items|
      invariant i <= |items|
      invariant Each(ResultItemOf(host), items[..i]) == Normal(output)
    {
      var part := FormatResultItem(host, items[i]);
      assert items[..i + 1][..i] == items[..i];
      if part.Throw? {
        EachThrows(ResultItemOf(host), items, i);
        return Throw;
      }
      output := output + part.value;
      i := i + 1;
    }
    assert items[..i] == items;
    r := Normal(output);
  }

  /** Lines 88-126 for one `tool_result` element. */
  method FormatToolResult(host: Host, content: Json) returns (r: Completion<string>)
    ensures r == ToolResultBlock(host, content)
  {
    var id := Get(content, "tool_use_id");
    var tag := "";
    if Truthy(id) {
      if !id.value.JString? {
        return Throw;
      }
      tag := " [" + Take(id.value.s, 8) + "]";
    }
    assert ToolTag(id) == Normal(tag);
    var output := "\n📊 Tool Result" + tag + ":\n";
    assert ResultHead(id) == Normal(output);
    if Truthy(Get(content, "is_error")) {
      var lines := ErrorLines(host, content);
      if lines.Throw? {
        return Throw;
      }
      return Normal(output + lines.value);
    }
    var body := Get(content, "content");
    var rest := "";
    if Truthy(body) && body.value.JArray? {
      var items := FormatResultItems(host, body.value.items);
      if items.Throw? {
        return Throw;
      }
      rest := items.value;
    } else if Truthy(body) {
      rest := "   " + Join(Split(host.pretty(body.value), '\n'), "\n   ") + "\n";
    }
    assert ResultBody(host, body) == Normal(rest);
    r := Normal(output + rest);
  }

  /** The body of the loop of lines 85-126: only `tool_result` elements print. */
  method FormatUserItem(host: Host, content: Json) returns (r: Completion<string>)
    ensures r == UserItem(host, content)
  {
    if content.JNull? {
      r := Throw;
    } else if IsString(Get(content, "type"), "tool_result") {
      r := FormatToolResult(host, content);
    } else {
      r := Normal([]);
    }
  }

  /** The `for...of` of lines 85-126. */
  method FormatUser(host: Host, msg: Json) returns (r: Completion<string>)
    ensures r == UserText(host, msg)
  {
    var items := Get(msg, "content");
    if !Truthy(items) {
      return Normal([]);
    }
    var xs := Iterate(items.value);
    if xs.Throw? {
      return Throw;
    }
    var output := "";
    var i := 0;
    while i < |xs.value|
      invariant i <= |xs.value|
      invariant Each(UserItemOf(host), xs.value[..i]) == Normal(output)
    {
      var part := FormatUserItem(host, xs.value[i]);
      assert xs.value[..i + 1][..i] == xs.value[..i];
      if part.Throw? {
        EachThrows(UserItemOf(host), xs.value, i);
        return Throw;
      }
      output := output + part.value;
      i := i + 1;
    }
    assert xs.value[..i] == xs.value;
    r := Normal(output);
  }

  /** `formatVerboseOutput(jsonLine)`. */
  method FormatVerboseOutput(host: Host, jsonLine: string) returns (r: Option<string>)
    ensures r == VerboseOutput(host, jsonLine)
  {
    var decoded := host.parse(jsonLine);
    if decoded.None? {
      return None;
    }
    var data := decoded.value;
    if data.JNull? {
      return None;
    }
    var kind := Get(data, "type");
    var message := Get(data, "message");
    if IsString(kind, "system") && IsString(Get(data, "subtype"), "init") {
      var text := SystemText(host, data);
      if text.Throw? {
        return None;
      }
      return Some(text.value);
    }
    if IsString(kind, "assistant") && Truthy(message) {
      var output := FormatAssistant(host, message.value);
      if output.Throw? {
        return None;
      }
      return Some(output.value);
    }
    if IsString(kind, "user") && Truthy(message) {
      var output := FormatUser(host, message.value);
      if output.Throw? {
        return None;
      }
      if output.value != [] {
        return Some(TrimEnd(output.value));
      }
    }
    if IsString(kind, "result") {
      var output := OutcomeText(host, data);
      if output.Throw? {
        return None;
      }
      return Some(output.value);
    }
    if Truthy(kind) && !IsHandled(kind) {
      var text := UnknownText(host, data);
      if text.Throw? {
        return None;
      }
      return Some(text.value);
    }
    r := None;
  }
}
