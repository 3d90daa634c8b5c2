/** The text of one tool result (`formatToolResultText`, verboseFormatter.js lines 171-264). Text
    that decodes as JSON is summarised by its shape: a list, an object or a single value. Other
    text is sniffed, first match wins, as a chat transcript, as mail or calendar entries, as a file
    listing, and otherwise shown as plain lines: all of them when there are at most twenty, the
    first ten and the last two when there are more. */
module Payload {
  import opened Wrappers
  import opened Strings
  import opened Json
  import opened Names
  import opened Values
  import Transcript
  import Email
  import Files

  // ---------------------------------------------------------------------------------------------
  // Decoded lists (lines 179-198)

  const EmptyList := "   📋 Empty list\n"

  function ListHeader(n: nat): string {
    "   📋 List (" + NatToString(n) + " items):\n"
  }

  function MoreItems(hidden: nat): string {
    "   ... (" + NatToString(hidden) + " more items)\n"
  }

  /** `xs.forEach((item, i) => { output += render(item, first + i); })`: each entry rendered with
      a label counted from `first`. */
  function Labelled(render: (Json, nat) -> string, xs: seq<Json>, first: nat): string {
    if xs == [] then []
    else Labelled(render, xs[..|xs| - 1], first) + render(xs[|xs| - 1], first + |xs| - 1)
  }

  /** The renderer of list entries, `formatJsonItem`. */
  function ItemOf(host: Host): (Json, nat) -> string {
    (item: Json, index: nat) => JsonItem(host, item, index)
  }

  /** The rendering of a decoded list: the whole list up to ten entries, otherwise the first
      five, a count of the hidden ones and the last two. */
  function ListText(host: Host, items: seq<Json>): string {
    var n := |items|;
    if n == 0 then EmptyList
    else if n > 10 then
      ListHeader(n) + Labelled(ItemOf(host), items[..5], 1) + MoreItems(n - 7) + Labelled(ItemOf(host), items[n - 2..], n - 1)
    else ListHeader(n) + Labelled(ItemOf(host), items, 1)
  }

  /** The positions `a`, ..., `b - 1`. */
  function Range(a: nat, b: nat): (r: seq<nat>)
    requires a <= b
    ensures |r| == b - a && forall i :: 0 <= i < |r| ==> r[i] == a + i
  {
    seq(b - a, i requires 0 <= i < b - a => a + i)
  }

  /** The entries at the given positions, each labelled with its 1-based position in the list. */
  function Numbered(render: (Json, nat) -> string, items: seq<Json>, at: seq<nat>): string
    requires forall i :: 0 <= i < |at| ==> at[i] < |items|
  {
    if at == [] then []
    else Numbered(render, items, at[..|at| - 1]) + render(items[at[|at| - 1]], at[|at| - 1] + 1)
  }

  /** Entries that sit at positions `a`, `a + 1`, ... of the list, labelled from `a + 1`, are
      labelled with their own 1-based positions in the list. */
  lemma {:induction false} LabelsArePositions(render: (Json, nat) -> string, items: seq<Json>, xs: seq<Json>, a: nat)
    requires a + |xs| <= |items|
    requires forall i :: 0 <= i < |xs| ==> xs[i] == items[a + i]
    ensures Labelled(render, xs, a + 1) == Numbered(render, items, Range(a, a + |xs|))
  {
    if xs != [] {
      var m := |xs| - 1;
      LabelsArePositions(render, items, xs[..m], a);
      assert Range(a, a + |xs|)[..m] == Range(a, a + m);
    }
  }

  /** A whole list labelled from 1 is labelled with its positions. */
  lemma {:induction false} WholeListLabels(render: (Json, nat) -> string, items: seq<Json>)
    ensures Labelled(render, items, 1) == Numbered(render, items, Range(0, |items|))
  {
    LabelsArePositions(render, items, items, 0);
  }

  /** A list of one to ten entries shows every entry, labelled with its 1-based position. */
  lemma {:induction false} ShortListShowsAll(host: Host, items: seq<Json>)
    requires 1 <= |items| <= 10
    ensures ListText(host, items) == ListHeader(|items|) + Numbered(ItemOf(host), items, Range(0, |items|))
  {
    WholeListLabels(ItemOf(host), items);
  }

  /** A list of more than ten entries shows positions 1-5 and the last two, each labelled with
      its own 1-based position, and between them a count that is exactly the number of entries
      left out. */
  lemma {:induction false} LongListShowsEnds(host: Host, items: seq<Json>)
    requires |items| > 10
    ensures ListText(host, items) == ListHeader(|items|) + Numbered(ItemOf(host), items, Range(0, 5))
      + MoreItems(|Range(5, |items| - 2)|) + Numbered(ItemOf(host), items, Range(|items| - 2, |items|))
  {
    var n := |items|;
    LabelsArePositions(ItemOf(host), items, items[..5], 0);
    LabelsArePositions(ItemOf(host), items, items[n - 2..], n - 2);
    assert |Range(5, n - 2)| == n - 7;
  }

  /** The `forEach` loops of lines 186-197, appending to `output`. */
  method AppendItems(host: Host, output: string, xs: seq<Json>, first: nat) returns (out: string)
    ensures out == output + Labelled(ItemOf(host), xs, first)
  {
    out := output;
    var i := 0;
    while i < |xs|
      invariant i <= |xs|
      invariant out == output + Labelled(ItemOf(host), xs[..i], first)
    {
      assert xs[..i + 1][..i] == xs[..i];
      assert Labelled(ItemOf(host), xs[..i + 1], first) == Labelled(ItemOf(host), xs[..i], first) + JsonItem(host, xs[i], first + i);
      ConcatAssoc(output, Labelled(ItemOf(host), xs[..i], first), JsonItem(host, xs[i], first + i));
      out := out + JsonItem(host, xs[i], first + i);
      i := i + 1;
    }
    assert xs[..i] == xs;
  }

  // ---------------------------------------------------------------------------------------------
  // Decoded objects (lines 199-210)

  const EmptyObject := "   📦 Empty object\n"
  const DataHeader := "   📦 Data:"

  /** The line of one member, without its newline. */
  function MemberLine(host: Host, member: (string, Json)): string {
    "      • " + HumanKey(member.0) + ": " + ValueText(host, member.1)
  }

  /** `entries.forEach(([key, value]) => { output += formatKeyValue(humanised key, value); })`. */
  function MemberText(host: Host, fields: seq<(string, Json)>): string {
    if fields == [] then []
    else MemberText(host, fields[..|fields| - 1]) + KeyValue(host, HumanKey(fields[|fields| - 1].0), fields[|fields| - 1].1)
  }

  function ObjectText(host: Host, fields: seq<(string, Json)>): string {
    if fields == [] then EmptyObject else DataHeader + "\n" + MemberText(host, fields)
  }

  lemma {:induction false} MemberTextIsLines(host: Host, fields: seq<(string, Json)>)
    ensures MemberText(host, fields) == Unlines(seq(|fields|, i requires 0 <= i < |fields| => MemberLine(host, fields[i])))
  {
    if fields != [] {
      var init := fields[..|fields| - 1];
      MemberTextIsLines(host, init);
      var all := seq(|fields|, i requires 0 <= i < |fields| => MemberLine(host, fields[i]));
      assert all[..|init|] == seq(|init|, i requires 0 <= i < |init| => MemberLine(host, init[i]));
    }
  }

  /** A member whose key and value text hold no newline. */
  predicate PlainMember(host: Host, member: (string, Json)) {
    && '\n' !in member.0
    && (member.1.JString? ==> '\n' !in member.1.s)
    && (member.1.JNum? ==> '\n' !in host.locale(member.1))
  }

  lemma MemberLineOneLine(host: Host, member: (string, Json))
    requires PlainMember(host, member)
    ensures '\n' !in MemberLine(host, member)
  {
    var key := HumanKey(member.0);
    OneLineIff(member.0);
    HumanKeyOneLine(member.0);
    OneLineIff(key);
    KeyValueIsOneLine(host, key, member.1);
    var r := KeyValue(host, key, member.1);
    assert MemberLine(host, member) == r[..|r| - 1];
    assert Split(r, '\n')[0] == r[..|r| - 1];
  }

  /** A decoded object with members shows a header and then exactly one line per member, in
      member order, each giving the humanised key and the value's text. */
  lemma ObjectOneLinePerMember(host: Host, fields: seq<(string, Json)>)
    requires fields != []
    requires forall i :: 0 <= i < |fields| ==> PlainMember(host, fields[i])
    ensures Split(ObjectText(host, fields), '\n')
         == [DataHeader] + seq(|fields|, i requires 0 <= i < |fields| => MemberLine(host, fields[i])) + [[]]
  {
    var lines := seq(|fields|, i requires 0 <= i < |fields| => MemberLine(host, fields[i]));
    MemberTextIsLines(host, fields);
    forall i | 0 <= i < |lines| ensures '\n' !in lines[i] {
      MemberLineOneLine(host, fields[i]);
    }
    var all := [DataHeader] + lines;
    assert forall i :: 0 <= i < |all| ==> '\n' !in all[i] by {
      forall i | 0 <= i < |all| ensures '\n' !in all[i] {
        if i > 0 {
          assert all[i] == lines[i - 1];
        }
      }
    }
    UnlinesAppend([DataHeader], lines);
    UnlinesOne(DataHeader);
    SplitUnlines(all);
  }

  /** The loop of lines 206-209. */
  method AppendMembers(host: Host, output: string, fields: seq<(string, Json)>) returns (out: string)
    ensures out == output + MemberText(host, fields)
  {
    out := output;
    var i := 0;
    while i < |fields|
      invariant i <= |fields|
      invariant out == output + MemberText(host, fields[..i])
    {
      assert fields[..i + 1][..i] == fields[..i];
      var (key, value) := fields[i];
      assert MemberText(host, fields[..i + 1]) == MemberText(host, fields[..i]) + KeyValue(host, HumanKey(key), value);
      ConcatAssoc(output, MemberText(host, fields[..i]), KeyValue(host, HumanKey(key), value));
      out := out + KeyValue(host, HumanKey(key), value);
      i := i + 1;
    }
    assert fields[..i] == fields;
  }

  // ---------------------------------------------------------------------------------------------
  // Any decoded value (lines 176-216)

  /** The rendering of a decoded value: a list, an object, or a single value as its JSON. */
  function JsonText(host: Host, v: Json): string {
    match v
    case JArray(items) => ListText(host, items)
    case JObject(fields) => ObjectText(host, fields)
    case _ => "   → " + host.stringify(v) + "\n"
  }

  /** Lines 181-198. */
  method FormatList(host: Host, items: seq<Json>) returns (output: string)
    ensures output == ListText(host, items)
  {
    var n := |items|;
    if n == 0 {
      output := EmptyList;
    } else if n > 10 {
      output := ListHeader(n);
      output := AppendItems(host, output, items[..5], 1);
      output := output + MoreItems(n - 7);
      output := AppendItems(host, output, items[n - 2..], n - 1);
    } else {
      output := ListHeader(n);
      output := AppendItems(host, output, items, 1);
    }
  }

  /** Lines 201-210. */
  method FormatObject(host: Host, fields: seq<(string, Json)>) returns (output: string)
    ensures output == ObjectText(host, fields)
  {
    if |fields| == 0 {
      output := EmptyObject;
    } else {
      output := DataHeader + "\n";
      output := AppendMembers(host, output, fields);
    }
  }

  /** Lines 176-216. */
  method FormatJsonData(host: Host, v: Json) returns (output: string)
    ensures output == JsonText(host, v)
  {
    match v {
      case JArray(items) =>
        output := FormatList(host, items);
      case JObject(fields) =>
        output := FormatObject(host, fields);
      case _ =>
        output := "   → " + host.stringify(v) + "\n";
    }
  }

  // ---------------------------------------------------------------------------------------------
  // Plain text (lines 240-260)

  function OutputHeader(n: nat): string {
    "   📝 Output (" + NatToString(n) + " lines):"
  }

  function MoreLines(hidden: nat): string {
    "   ... (" + NatToString(hidden) + " more lines)"
  }

  /** A line of a long output: indented and cut to its first 100 characters. */
  function CutLine(line: string): string {
    "   " + Take(line, 100)
  }

  /** A line of a short output: indented and kept whole. */
  function Indent(line: string): string {
    "   " + line
  }

  /** The lines written for plain text, without their newlines. Only the non-blank lines count;
      a single one (or none) shows the text itself cut to 200 characters, and empty text shows
      nothing. */
  function PlainLines(text: string): seq<string> {
    var lines := NonBlankLines(Split(text, '\n'));
    var n := |lines|;
    if n > 20 then Window(lines)
    else if n > 1 then MapLines(Indent, lines)
    else if text != [] then ["   → " + Take(text, 200)]
    else []
  }

  /** The lines written for more than twenty lines: a header, the first ten, a count of the hidden
      ones and the last two. */
  function Window(lines: seq<string>): seq<string>
    requires |lines| > 20
  {
    var n := |lines|;
    [OutputHeader(n)] + MapLines(CutLine, lines[..10]) + [MoreLines(n - 12)] + MapLines(CutLine, lines[n - 2..])
  }

  function PlainText(text: string): string {
    Unlines(PlainLines(text))
  }

  lemma DigitsOneLine(n: nat)
    ensures '\n' !in NatToString(n)
  {
    var s := NatToString(n);
    assert forall i :: 0 <= i < |s| ==> IsDigit(s[i]);
  }

  lemma CutLinesOneLine(lines: seq<string>)
    requires forall i :: 0 <= i < |lines| ==> '\n' !in lines[i]
    ensures forall i :: 0 <= i < |lines| ==> '\n' !in CutLine(lines[i])
  {
    forall i | 0 <= i < |lines| ensures '\n' !in CutLine(lines[i]) {
      OneLineIff(lines[i]);
      OneLineKept(lines[i], 100);
      OneLineIff(Take(lines[i], 100));
    }
  }

  /** The non-blank lines of a split hold no newline. */
  lemma KeptLinesOneLine(text: string)
    ensures forall i :: 0 <= i < |NonBlankLines(Split(text, '\n'))| ==> '\n' !in NonBlankLines(Split(text, '\n'))[i]
  {
    var lines := Split(text, '\n');
    var kept := NonBlankLines(lines);
    forall i | 0 <= i < |kept| ensures '\n' !in kept[i] {
      var j :| 0 <= j < |lines| && lines[j] == kept[i];
    }
  }

  /** Text with two to twenty non-blank lines shows each of them, indented and whole, one
      output line per line. */
  lemma ShortTextShowsAll(text: string)
    requires 1 < |NonBlankLines(Split(text, '\n'))| <= 20
    ensures PlainLines(text) == MapLines(Indent, NonBlankLines(Split(text, '\n')))
    ensures Split(PlainText(text), '\n') == PlainLines(text) + [[]]
  {
    var lines := NonBlankLines(Split(text, '\n'));
    KeptLinesOneLine(text);
    var out := PlainLines(text);
    assert forall i :: 0 <= i < |out| ==> out[i] == Indent(lines[i]);
    SplitUnlines(out);
  }

  /** The window of lines holding no newline holds no newline. */
  lemma {:induction false} WindowOneLine(lines: seq<string>)
    requires |lines| > 20
    requires forall i :: 0 <= i < |lines| ==> '\n' !in lines[i]
    ensures forall i :: 0 <= i < |Window(lines)| ==> '\n' !in Window(lines)[i]
  {
    var n := |lines|;
    var first, last := MapLines(CutLine, lines[..10]), MapLines(CutLine, lines[n - 2..]);
    CutLinesOneLine(lines[..10]);
    CutLinesOneLine(lines[n - 2..]);
    DigitsOneLine(n);
    DigitsOneLine(n - 12);
    var head := [OutputHeader(n)] + first + [MoreLines(n - 12)];
    assert forall i :: 0 <= i < |head| ==> '\n' !in head[i];
    assert Window(lines) == head + last;
  }

  /** The window has fourteen lines, and its count is exactly the number of lines left out. */
  lemma {:induction false} WindowShape(lines: seq<string>)
    requires |lines| > 20
    ensures var n := |lines|;
      && |Window(lines)| == 14
      && Window(lines)[0] == OutputHeader(n)
      && Window(lines)[1..11] == MapLines(CutLine, lines[..10])
      && Window(lines)[11] == MoreLines(|lines[10..n - 2]|)
      && Window(lines)[12..] == MapLines(CutLine, lines[n - 2..])
  {
  }

  /** Text with more than twenty non-blank lines comes out as exactly fourteen lines: a header,
      the first ten lines cut to 100 characters, a count that is exactly the number of lines left
      out, and the last two lines cut the same way. */
  lemma {:induction false} LongTextShowsEnds(text: string)
    requires |NonBlankLines(Split(text, '\n'))| > 20
    ensures var lines := NonBlankLines(Split(text, '\n'));
      var n := |lines|;
      && Split(PlainText(text), '\n') == PlainLines(text) + [[]]
      && |PlainLines(text)| == 14
      && PlainLines(text)[0] == OutputHeader(n)
      && PlainLines(text)[1..11] == MapLines(CutLine, lines[..10])
      && PlainLines(text)[11] == MoreLines(|lines[10..n - 2]|)
      && PlainLines(text)[12..] == MapLines(CutLine, lines[n - 2..])
  {
    var lines := NonBlankLines(Split(text, '\n'));
    assert PlainLines(text) == Window(lines);
    KeptLinesOneLine(text);
    WindowOneLine(lines);
    WindowShape(lines);
    SplitUnlines(Window(lines));
  }

  /** The loops of lines 245-255, appending `f(line)` and a newline per line to `output`. */
  method AppendLines(f: string -> string, output: string, lines: seq<string>) returns (out: string)
    ensures out == output + Unlines(MapLines(f, lines))
  {
    out := output;
    var i := 0;
    while i < |lines|
      invariant i <= |lines|
      invariant out == output + Unlines(MapLines(f, lines[..i]))
    {
      assert lines[..i + 1] == lines[..i] + [lines[i]];
      UnlinesMapSnoc(f, lines[..i], lines[i]);
      out := out + (f(lines[i]) + "\n");
      i := i + 1;
    }
    assert lines[..i] == lines;
  }

  /** Lines 243-250: the first ten and the last two lines, cut, around the count of the rest. */
  method FormatWindow(lines: seq<string>) returns (output: string)
    requires |lines| > 20
    ensures output == Unlines(Window(lines))
  {
    var n := |lines|;
    output := OutputHeader(n) + "\n";
    output := AppendLines(CutLine, output, lines[..10]);
    output := output + MoreLines(n - 12) + "\n";
    output := AppendLines(CutLine, output, lines[n - 2..]);
    var a, b := MapLines(CutLine, lines[..10]), MapLines(CutLine, lines[n - 2..]);
    UnlinesAppend([OutputHeader(n)] + a + [MoreLines(n - 12)], b);
    UnlinesAppend([OutputHeader(n)] + a, [MoreLines(n - 12)]);
    UnlinesAppend([OutputHeader(n)], a);
    UnlinesOne(OutputHeader(n));
    UnlinesOne(MoreLines(n - 12));
  }

  method FormatPlainText(text: string) returns (output: string)
    ensures output == PlainText(text)
  {
    output := "";
    var lines := NonBlankLines(Split(text, '\n'));
    var n := |lines|;
    if n > 1 {
      if n > 20 {
        output := FormatWindow(lines);
      } else {
        output := AppendLines(Indent, output, lines);
      }
    } else if text != [] {
      output := output + "   → " + Take(text, 200) + "\n";
      UnlinesOne("   → " + Take(text, 200));
    }
  }

  // ---------------------------------------------------------------------------------------------
  // Sniffing (lines 221-237)

  /** A timestamp in brackets, a chat header mark or an arrow (line 223-225). */
  predicate LooksLikeTranscript(text: string) {
    (Contains(text, "[") && Transcript.HasStamp(text)) || Contains(text, "┌─") || Contains(text, "→")
  }

  /** A subject, sender or start field (line 230). */
  predicate LooksLikeMail(text: string) {
    Contains(text, "Subject:") || Contains(text, "From:") || Contains(text, "Start:")
  }

  /** A type field and a file or folder (line 235). */
  predicate LooksLikeListing(text: string) {
    Contains(text, "Type:") && (Contains(text, "File") || Contains(text, "Folder"))
  }

  /** The renderer chosen for text that is not JSON. */
  datatype Format = AsTranscript | AsMail | AsListing | AsPlainText

  /** The first test that matches decides: each renderer is chosen exactly when its own test
      holds and every earlier one fails. */
  function Sniff(text: string): (f: Format)
    ensures f == AsTranscript <==> LooksLikeTranscript(text)
    ensures f == AsMail <==> !LooksLikeTranscript(text) && LooksLikeMail(text)
    ensures f == AsListing <==> !LooksLikeTranscript(text) && !LooksLikeMail(text) && LooksLikeListing(text)
    ensures f == AsPlainText <==> !LooksLikeTranscript(text) && !LooksLikeMail(text) && !LooksLikeListing(text)
  {
    if LooksLikeTranscript(text) then AsTranscript
    else if LooksLikeMail(text) then AsMail
    else if LooksLikeListing(text) then AsListing
    else AsPlainText
  }

  /** `formatToolResultText(text)`: JSON first; only text that does not decode is sniffed. */
  function ToolResultText(host: Host, text: string): string {
    match host.parse(text)
    case Some(v) => JsonText(host, v)
    case None =>
      match Sniff(text)
      case AsTranscript => Transcript.WhatsAppMessages(text)
      case AsMail => Email.EmailOrCalendar(text)
      case AsListing => Files.FileListing(text)
      case AsPlainText => PlainText(text)
  }

  /** Text that does not decode and is empty renders as nothing at all. */
  lemma EmptyTextIsSilent(host: Host)
    requires host.parse([]).None?
    ensures ToolResultText(host, []) == []
  {
    assert !Contains([], "[") && !Contains([], "┌─") && !Contains([], "→");
    assert !Contains([], "Subject:") && !Contains([], "From:") && !Contains([], "Start:");
    assert !Contains([], "Type:");
    assert Split([], '\n') == [[]];
    assert IsBlank([]);
  }

  method FormatToolResultText(host: Host, text: string) returns (output: string)
    ensures output == ToolResultText(host, text)
  {
    var jsonData := host.parse(text);
    if jsonData.Some? {
      output := FormatJsonData(host, jsonData.value);
    } else if LooksLikeTranscript(text) {
      output := Transcript.FormatWhatsAppMessages(text);
    } else if LooksLikeMail(text) {
      output := Email.FormatEmailOrCalendar(text);
    } else if LooksLikeListing(text) {
      output := Files.FormatFileListing(text);
    } else {
      output := FormatPlainText(text);
    }
  }
}
