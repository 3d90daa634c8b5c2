/** The chat-transcript renderer (`formatWhatsAppMessages`, verboseFormatter.js lines 312-384).
    Non-blank lines are read one by one: a header line names the current chat, a timestamped
    line or a bracketed line becomes a message of the current chat. The messages are then grouped
    by chat and printed chat by chat. The regular expressions of the source are written out as
    matchers that return what the JavaScript engine's backtracking search captures. */
module Transcript {
  import opened Wrappers
  import opened Strings
  import opened Json

  const Header := "   💬 WhatsApp Messages:\n\n"

  // ---------------------------------------------------------------------------------------------
  // Matchers

  /** How many characters at the start of `s` the regular-expression `.` matches. */
  function DotRun(s: string): (k: nat)
    ensures k <= |s|
    ensures forall i :: 0 <= i < k ==> !IsLineTerminator(s[i])
    ensures k < |s| ==> IsLineTerminator(s[k])
  {
    if s != [] && !IsLineTerminator(s[0]) then
      var k := DotRun(s[1..]);
      assert forall i :: 1 <= i < k + 1 ==> s[i] == s[1..][i - 1];
      k + 1
    else 0
  }

  /** The index of the last character `.` matches; `|s|` when there is none. */
  function LastDot(s: string): (k: nat)
    ensures k <= |s|
    ensures k < |s| ==> !IsLineTerminator(s[k]) && forall i :: k < i < |s| ==> IsLineTerminator(s[i])
    ensures k == |s| ==> forall i :: 0 <= i < |s| ==> IsLineTerminator(s[i])
  {
    if s == [] then 0
    else if !IsLineTerminator(s[|s| - 1]) then |s| - 1
    else
      var k := LastDot(s[..|s| - 1]);
      if k == |s| - 1 then |s| else k
  }

  /** "┌─" starts at index `j` of `s`. */
  predicate MarkAt(s: string, j: nat) {
    j + 1 < |s| && s[j] == '┌' && s[j + 1] == '─'
  }

  /** Where the first "┌─" of `s` starts; `|s|` when there is none. */
  function MarkIndex(s: string): (k: nat)
    ensures k <= |s|
    ensures k < |s| ==> MarkAt(s, k)
    ensures forall j :: 0 <= j < k ==> !MarkAt(s, j)
  {
    if |s| < 2 then |s|
    else if s[0] == '┌' && s[1] == '─' then 0
    else
      var k := MarkIndex(s[1..]);
      assert forall j :: 1 <= j < k + 1 ==> MarkAt(s, j) == MarkAt(s[1..], j - 1);
      k + 1
  }

  /** The group captured by `/┌─\s*(.+)/` (line 325), or None when the line does not match. */
  function ChatCapture(line: string): (r: Option<string>)
    ensures r.Some? ==> r.value != [] && forall i :: 0 <= i < |r.value| ==> !IsLineTerminator(r.value[i])
    ensures MarkIndex(line) == |line| ==> r.None?
  {
    var p := MarkIndex(line);
    if p == |line| then None else CaptureAfterMark(line[p + 2..])
  }

  /** `\s*(.+)` on what follows the first "┌─": the greedy `\s*` takes the white space and
      `(.+)` the rest up to a line terminator. When only white space follows, the engine
      backtracks and the capture is the last character of it that `.` matches, so it trims to
      nothing. */
  function CaptureAfterMark(rest: string): (r: Option<string>)
    ensures r.Some? ==> r.value != [] && forall i :: 0 <= i < |r.value| ==> !IsLineTerminator(r.value[i])
  {
    var k := LeadingSpace(rest);
    if k < |rest| then
      assert !IsLineTerminator(rest[k..][0]);
      Some(rest[k..k + DotRun(rest[k..])])
    else
      var j := LastDot(rest);
      if j < |rest| then Some([rest[j]]) else None
  }

  /** The end of `\d{2}-\d{2}\s+\d{2}:\d{2}` matched at index `t0` of `s`, if it matches there. */
  function StampEnd(s: string, t0: nat): (r: Option<nat>)
    ensures r.Some? ==> t0 + 11 <= r.value <= |s|
    ensures r.Some? ==> IsDigit(s[t0]) && IsDigit(s[r.value - 1])
  {
    if t0 + 5 <= |s| && IsDigit(s[t0]) && IsDigit(s[t0 + 1]) && s[t0 + 2] == '-'
       && IsDigit(s[t0 + 3]) && IsDigit(s[t0 + 4]) then
      var d := t0 + 5 + LeadingSpace(s[t0 + 5..]);
      if d > t0 + 5 && d + 5 <= |s| && IsDigit(s[d]) && IsDigit(s[d + 1]) && s[d + 2] == ':'
         && IsDigit(s[d + 3]) && IsDigit(s[d + 4]) then Some(d + 5)
      else None
    else None
  }

  /** `\[\d{2}-\d{2}\s+\d{2}:\d{2}` matches somewhere in `s` (the test of line 223). */
  predicate HasStamp(s: string) {
    exists i :: 0 <= i < |s| && s[i] == '[' && StampEnd(s, i + 1).Some?
  }

  /** `\s*(.*)`: the text after the white space, up to a line terminator. */
  function Tail(s: string): (r: string)
    ensures r == [] || !IsSpace(r[0])
    ensures forall i :: 0 <= i < |r| ==> !IsLineTerminator(r[i])
  {
    var k := LeadingSpace(s);
    s[k..k + DotRun(s[k..])]
  }

  /** What the message expression of line 333 captures: the timestamp, the sender when the
      optional group took part, and the message text. */
  datatype RawMessage = RawMessage(stamp: string, sender: Option<string>, body: string)

  /** `/^\s*[│|]?\s*\[(\d{2}-\d{2}\s+\d{2}:\d{2})(?:\s+([^\]]+))?\]\s*(.*)/` on a line. */
  function MessageMatch(line: string): (r: Option<RawMessage>)
    ensures r.Some? ==> |r.value.stamp| >= 11 && IsDigit(r.value.stamp[0])
    ensures r.Some? && r.value.sender.Some? ==> r.value.sender.value != [] && ']' !in r.value.sender.value
  {
    var i0 := LeadingSpace(line);
    var i1 := if i0 < |line| && (line[i0] == '│' || line[i0] == '|') then i0 + 1 + LeadingSpace(line[i0 + 1..]) else i0;
    if i1 < |line| && line[i1] == '[' then
      match StampEnd(line, i1 + 1)
      case None => None
      case Some(t) => SenderAndBody(line, line[i1 + 1..t], t)
    else None
  }

  /** The part of the message expression after the timestamp, which ends at index `t`:
      `(?:\s+([^\]]+))?\]\s*(.*)`. The optional group is tried first; `[^\]]+` runs to the first
      "]". When that "]" comes right after the white space, the engine gives the last white-space
      character back to `[^\]]+`, which needs at least one character. */
  function SenderAndBody(line: string, stamp: string, t: nat): (r: Option<RawMessage>)
    requires t <= |line|
    ensures r.Some? ==> r.value.stamp == stamp
    ensures r.Some? && r.value.sender.Some? ==> r.value.sender.value != [] && ']' !in r.value.sender.value
  {
    if t < |line| && line[t] == ']' then Some(RawMessage(stamp, None, Tail(line[t + 1..])))
    else if t < |line| && IsSpace(line[t]) then
      var s := t + LeadingSpace(line[t..]);
      var q := s + IndexOf(line[s..], ']');
      if q == |line| then None
      else if q > s then
        assert line[s..q] == line[s..][..q - s];
        Some(RawMessage(stamp, Some(line[s..q]), Tail(line[q + 1..])))
      else if s - t >= 2 then
        assert IsSpace(line[t..][s - 1 - t]);
        Some(RawMessage(stamp, Some([line[s - 1]]), Tail(line[q + 1..])))
      else None
    else None
  }

  /** The fallback test of lines 344-347: the line holds "[" and "]", and `/\[([^\]]+)\]/`
      matches, that is some "[" is followed by a character other than "]" and later by a "]". */
  predicate FallbackLine(line: string) {
    && Contains(line, "[") && Contains(line, "]")
    && exists i, j :: 0 <= i && i + 1 < j < |line| && line[i] == '[' && line[i + 1] != ']' && line[j] == ']'
  }

  /** Lines that switch chats (line 324). */
  predicate IsHeaderLine(line: string) {
    Contains(line, "┌─") || Contains(line, "───")
  }

  // ---------------------------------------------------------------------------------------------
  // Reading messages

  /** A parsed message (lines 337-343 and 348-354). */
  datatype Message = Message(chat: string, timestamp: string, sender: string, text: string, outgoing: bool)

  /** `currentChat || 'Unknown'`: no chat yet, or a chat name that trimmed to nothing, files the
      message under "Unknown". */
  function ChatName(current: Option<string>): (r: string)
    ensures r != []
    ensures current.Some? && current.value != [] ==> r == current.value
    ensures current.None? || current.value == [] ==> r == "Unknown"
  {
    if current.Some? && current.value != [] then current.value else "Unknown"
  }

  /** The message a matched line becomes (lines 337-343): with no sender it is the user's own,
      outgoing message; a text starting with an arrow is outgoing and loses the arrow. */
  function FromMatch(current: Option<string>, m: RawMessage): (r: Message)
    ensures r.chat == ChatName(current) && r.timestamp == Trim(m.stamp)
    ensures m.sender.None? ==> r.sender == "Me" && r.outgoing
    ensures m.sender.Some? ==> r.sender == Trim(m.sender.value) && (r.outgoing <==> StartsWith(m.body, "→"))
    ensures StartsWith(m.body, "→") ==> r.text == Trim(m.body[1..])
    ensures !StartsWith(m.body, "→") ==> r.text == Trim(m.body)
  {
    Message(ChatName(current), Trim(m.stamp),
            if m.sender.Some? then Trim(m.sender.value) else "Me",
            if StartsWith(m.body, "→") then Trim(m.body[1..]) else Trim(m.body),
            m.sender.None? || StartsWith(m.body, "→"))
  }

  /** The message a bracketed line that is not a timestamped message becomes (lines 348-354). */
  function FromFallback(current: Option<string>, line: string): (r: Message)
    ensures r.chat == ChatName(current) && r.timestamp == [] && r.sender == "Unknown"
    ensures r.text == Trim(line) && (r.outgoing <==> Contains(line, "→"))
  {
    Message(ChatName(current), "", "Unknown", Trim(line), Contains(line, "→"))
  }

  /** What the first pass has built so far: `currentChat` (None for null) and `messages`. */
  datatype ScanState = ScanState(current: Option<string>, messages: seq<Message>)

  /** A line that adds a message. */
  predicate IsMessageLine(line: string) {
    !IsBlank(line) && !IsHeaderLine(line) && (MessageMatch(line).Some? || FallbackLine(line))
  }

  /** One step of the first pass (lines 320-357). */
  function ScanLine(st: ScanState, line: string): (r: ScanState)
    ensures IsMessageLine(line) ==> |r.messages| == |st.messages| + 1 && r.messages[..|st.messages|] == st.messages
    ensures !IsMessageLine(line) ==> r.messages == st.messages
    ensures !IsHeaderLine(line) ==> r.current == st.current
    ensures !IsBlank(line) && !IsHeaderLine(line) && MessageMatch(line).Some? ==>
      r.messages == st.messages + [FromMatch(st.current, MessageMatch(line).value)]
    ensures !IsBlank(line) && !IsHeaderLine(line) && MessageMatch(line).None? && FallbackLine(line) ==>
      r.messages == st.messages + [FromFallback(st.current, line)]
  {
    if IsBlank(line) then st
    else if IsHeaderLine(line) then
      match ChatCapture(line)
      case Some(c) => ScanState(Some(Trim(c)), st.messages)
      case None => st
    else
      match MessageMatch(line)
      case Some(m) => ScanState(st.current, st.messages + [FromMatch(st.current, m)])
      case None =>
        if FallbackLine(line) then ScanState(st.current, st.messages + [FromFallback(st.current, line)])
        else st
  }

  /** The first pass over `lines`, starting with no chat and no messages. */
  function Scan(lines: seq<string>): ScanState {
    if lines == [] then ScanState(None, [])
    else ScanLine(Scan(lines[..|lines| - 1]), lines[|lines| - 1])
  }

  /** The number of lines that add a message. */
  function CountMessageLines(lines: seq<string>): nat {
    if lines == [] then 0
    else CountMessageLines(lines[..|lines| - 1]) + (if IsMessageLine(lines[|lines| - 1]) then 1 else 0)
  }

  /** Exactly one message per message line, in line order: earlier messages are never changed. */
  lemma {:induction false} ScanCountsMessages(lines: seq<string>)
    ensures |Scan(lines).messages| == CountMessageLines(lines)
  {
    if lines != [] {
      ScanCountsMessages(lines[..|lines| - 1]);
    }
  }

  /** Before any header line every message belongs to "Unknown". */
  lemma {:induction false} NoHeaderMeansUnknown(lines: seq<string>)
    requires forall i :: 0 <= i < |lines| ==> !Contains(lines[i], "┌─")
    ensures Scan(lines).current == None
    ensures forall i :: 0 <= i < |Scan(lines).messages| ==> Scan(lines).messages[i].chat == "Unknown"
  {
    if lines != [] {
      var init := lines[..|lines| - 1];
      NoHeaderMeansUnknown(init);
      var line := lines[|lines| - 1];
      if !IsBlank(line) && IsHeaderLine(line) {
        MarkIndexFindsMark(line);
      }
    }
  }

  /** A line without "┌─" has no mark for the header expression to start at. */
  lemma {:induction false} MarkIndexFindsMark(line: string)
    requires !Contains(line, "┌─")
    ensures MarkIndex(line) == |line|
  {
    var p := MarkIndex(line);
    if p < |line| {
      assert OccursAt(line, "┌─", p) by {
        assert line[p..p + 2] == "┌─";
      }
      ContainsIff(line, "┌─");
    }
  }

  lemma LeadingSpaceOfTrimmed(s: string)
    requires s == [] || !IsSpace(s[0])
    ensures LeadingSpace(s) == 0
  {
  }

  /** A line starting with the mark is a non-blank header line. */
  lemma MarkedLineIsHeader(line: string)
    requires |line| >= 2 && line[0] == '┌' && line[1] == '─'
    ensures !IsBlank(line) && IsHeaderLine(line) && MarkIndex(line) == 0
  {
    assert StartsWith(line, "┌─") by {
      assert line[..2] == "┌─";
    }
    BlankIffAllSpace(line);
    assert !IsSpace(line[0]);
  }

  lemma LeadingSpaceAfterSpace(name: string)
    ensures LeadingSpace(" " + name) == 1 + LeadingSpace(name)
  {
    assert (" " + name)[1..] == name;
  }

  lemma {:induction false} DotRunAll(s: string)
    requires forall i :: 0 <= i < |s| ==> !IsLineTerminator(s[i])
    ensures DotRun(s) == |s|
  {
    if s != [] {
      DotRunAll(s[1..]);
    }
  }

  lemma {:induction false} CaptureOfTextUnfold(rest: string)
    requires LeadingSpace(rest) < |rest|
    ensures var k := LeadingSpace(rest);
      CaptureAfterMark(rest) == Some(rest[k..k + DotRun(rest[k..])])
  {
  }

  /** A text with something other than white space and no line terminator is captured
      without its leading white space. */
  lemma {:induction false} CaptureOfText(rest: string)
    requires LeadingSpace(rest) < |rest|
    requires forall i :: 0 <= i < |rest| ==> !IsLineTerminator(rest[i])
    ensures CaptureAfterMark(rest) == Some(TrimStart(rest))
  {
    CaptureOfTextUnfold(rest);
    var k := LeadingSpace(rest);
    var tail := rest[k..];
    assert forall i :: 0 <= i < |tail| ==> !IsLineTerminator(tail[i]) by {
      forall i | 0 <= i < |tail| ensures !IsLineTerminator(tail[i]) {
        assert tail[i] == rest[k + i];
      }
    }
    DotRunAll(tail);
    assert rest[k..k + |tail|] == tail;
  }

  lemma NotBlankHasContent(s: string)
    requires !IsBlank(s)
    ensures LeadingSpace(s) < |s|
  {
    BlankIffAllSpace(s);
  }

  lemma TrimStartAfterSpace(name: string)
    ensures TrimStart(" " + name) == TrimStart(name)
  {
    LeadingSpaceAfterSpace(name);
    assert (" " + name)[1 + LeadingSpace(name)..] == name[LeadingSpace(name)..];
  }

  lemma HeaderCapture(name: string)
    ensures ChatCapture("┌─ " + name) == CaptureAfterMark(" " + name)
  {
    var line := "┌─ " + name;
    assert line == "┌─" + (" " + name);
    assert line[2..] == " " + name;
    MarkedLineIsHeader(line);
  }

  lemma SpacedCapture(name: string)
    requires forall i :: 0 <= i < |name| ==> !IsLineTerminator(name[i])
    requires !IsBlank(name)
    ensures CaptureAfterMark(" " + name) == Some(TrimStart(" " + name))
  {
    var rest := " " + name;
    LeadingSpaceAfterSpace(name);
    NotBlankHasContent(name);
    forall i | 0 <= i < |rest| ensures !IsLineTerminator(rest[i]) {
      if i > 0 {
        assert rest[i] == name[i - 1];
      }
    }
    CaptureOfText(rest);
  }

  lemma CaptureOfName(name: string)
    requires forall i :: 0 <= i < |name| ==> !IsLineTerminator(name[i])
    requires !IsBlank(name)
    ensures ChatCapture("┌─ " + name) == Some(TrimStart(name))
  {
    HeaderCapture(name);
    SpacedCapture(name);
    TrimStartAfterSpace(name);
  }

  /** A header "┌─ name" makes the trimmed name the current chat, when the name holds no line
      terminator and is not blank. */
  lemma HeaderNamesChat(st: ScanState, name: string)
    requires forall i :: 0 <= i < |name| ==> !IsLineTerminator(name[i])
    requires !IsBlank(name)
    ensures ScanLine(st, "┌─ " + name).current == Some(Trim(name))
  {
    MarkedLineIsHeader("┌─ " + name);
    CaptureOfName(name);
    LeadingSpaceOfTrimmed(TrimStart(name));
    assert TrimStart(TrimStart(name)) == TrimStart(name);
  }

  /** A header with only a space after the mark still matches, captures that space and so
      resets the current chat to the empty name: later messages go to "Unknown". */
  lemma BlankHeaderResetsChat(st: ScanState)
    ensures ScanLine(st, "┌─ ").current == Some([])
    ensures ChatName(ScanLine(st, "┌─ ").current) == "Unknown"
  {
    var line := "┌─ ";
    MarkedLineIsHeader(line);
    assert line[2..] == " ";
    assert LastDot(" ") == 0;
    assert CaptureAfterMark(" ") == Some(" ");
    assert LeadingSpace(" ") == 1;
  }

  // ---------------------------------------------------------------------------------------------
  // Grouping

  /** `chatGroups`: the chat names in the order their first message came, and each chat's
      messages. */
  datatype Groups = Groups(order: seq<string>, members: map<string, seq<Message>>)

  /** Lines 360-366 with a dictionary that has no inherited members. */
  function Group(msgs: seq<Message>): (g: Groups)
    ensures forall c :: c in g.members <==> c in g.order
  {
    if msgs == [] then Groups([], map[])
    else
      var g := Group(msgs[..|msgs| - 1]);
      var m := msgs[|msgs| - 1];
      if m.chat in g.members then Groups(g.order, g.members[m.chat := g.members[m.chat] + [m]])
      else Groups(g.order + [m.chat], g.members[m.chat := [m]])
  }

  /** The messages of one chat, in order. */
  function OfChat(msgs: seq<Message>, chat: string): (r: seq<Message>)
    ensures |r| <= |msgs|
    ensures forall i :: 0 <= i < |r| ==> r[i].chat == chat && r[i] in msgs
  {
    if msgs == [] then []
    else
      var m := msgs[|msgs| - 1];
      OfChat(msgs[..|msgs| - 1], chat) + (if m.chat == chat then [m] else [])
  }

  /** Each chat is listed once. */
  lemma {:induction false} GroupOrderDistinct(msgs: seq<Message>)
    ensures forall i, j :: 0 <= i < j < |Group(msgs).order| ==> Group(msgs).order[i] != Group(msgs).order[j]
  {
    if msgs != [] {
      GroupOrderDistinct(msgs[..|msgs| - 1]);
    }
  }

  /** Exactly the chats that have messages are listed. */
  lemma {:induction false} GroupChats(msgs: seq<Message>)
    ensures forall c :: c in Group(msgs).members <==> exists i :: 0 <= i < |msgs| && msgs[i].chat == c
  {
    if msgs != [] {
      var init := msgs[..|msgs| - 1];
      GroupChats(init);
      forall c ensures c in Group(msgs).members <==> exists i :: 0 <= i < |msgs| && msgs[i].chat == c {
        if exists i :: 0 <= i < |init| && init[i].chat == c {
          var i :| 0 <= i < |init| && init[i].chat == c;
          assert msgs[i] == init[i];
        }
        if exists i :: 0 <= i < |msgs| && msgs[i].chat == c {
          var i :| 0 <= i < |msgs| && msgs[i].chat == c;
          if i < |init| {
            assert init[i] == msgs[i];
          }
        }
      }
    }
  }

  /** Each chat holds exactly its own messages, in their original order. */
  lemma {:induction false} GroupMembers(msgs: seq<Message>)
    ensures forall c :: c in Group(msgs).members ==> Group(msgs).members[c] == OfChat(msgs, c)
  {
    if msgs != [] {
      var init := msgs[..|msgs| - 1];
      var m := msgs[|msgs| - 1];
      GroupMembers(init);
      var g0 := Group(init);
      var g := Group(msgs);
      forall c | c in g.members ensures g.members[c] == OfChat(msgs, c) {
        assert OfChat(msgs, c) == OfChat(init, c) + (if m.chat == c then [m] else []);
        if c != m.chat {
          assert g.members[c] == g0.members[c];
        } else if m.chat !in g0.members {
          assert OfChat(init, c) == [] by {
            if OfChat(init, c) != [] {
              var x := OfChat(init, c)[0];
              assert x.chat == c && x in init;
              GroupChats(init);
            }
          }
        }
      }
    }
  }

  /** The grouping is a partition: each chat is listed once, exactly the chats that have
      messages are listed, and each chat holds exactly its own messages in their original order. */
  lemma GroupIsPartition(msgs: seq<Message>)
    ensures var g := Group(msgs);
      && (forall i, j :: 0 <= i < j < |g.order| ==> g.order[i] != g.order[j])
      && (forall c :: c in g.members <==> exists i :: 0 <= i < |msgs| && msgs[i].chat == c)
      && (forall c :: c in g.members ==> g.members[c] == OfChat(msgs, c))
  {
    GroupOrderDistinct(msgs);
    GroupChats(msgs);
    GroupMembers(msgs);
  }

  /** Chat `a` has a message before the first message of chat `b`. */
  predicate SeenBefore(msgs: seq<Message>, a: string, b: string) {
    exists k :: 0 <= k < |msgs| && msgs[k].chat == a && forall l :: 0 <= l <= k ==> msgs[l].chat != b
  }

  lemma SeenBeforeExtends(init: seq<Message>, m: Message, a: string, b: string)
    requires SeenBefore(init, a, b)
    ensures SeenBefore(init + [m], a, b)
  {
    var k :| 0 <= k < |init| && init[k].chat == a && forall l :: 0 <= l <= k ==> init[l].chat != b;
    assert (init + [m])[k] == init[k];
    assert forall l :: 0 <= l <= k ==> (init + [m])[l] == init[l];
  }

  /** Chats are listed in the order of their first message (lines 361-364 add a chat when its
      first message comes). */
  lemma {:induction false} GroupFirstSeen(msgs: seq<Message>)
    ensures forall i, j :: 0 <= i < j < |Group(msgs).order| ==>
      SeenBefore(msgs, Group(msgs).order[i], Group(msgs).order[j])
  {
    if msgs != [] {
      var init, m := msgs[..|msgs| - 1], msgs[|msgs| - 1];
      assert msgs == init + [m];
      GroupFirstSeen(init);
      GroupChats(init);
      var g0, g := Group(init), Group(msgs);
      forall i, j | 0 <= i < j < |g.order| ensures SeenBefore(msgs, g.order[i], g.order[j]) {
        if j < |g0.order| {
          SeenBeforeExtends(init, m, g0.order[i], g0.order[j]);
        } else {
          assert m.chat !in g0.members && g.order[j] == m.chat && g.order[i] == g0.order[i];
          assert g0.order[i] in g0.members;
          var k :| 0 <= k < |init| && init[k].chat == g0.order[i];
          assert msgs[k].chat == g.order[i];
          assert forall l :: 0 <= l <= k ==> msgs[l].chat != m.chat by {
            forall l | 0 <= l <= k ensures msgs[l].chat != m.chat {
              assert msgs[l] == init[l];
            }
          }
        }
      }
    }
  }

  /** Chat names `chatGroups[name]` finds on `Object.prototype` before the chat has a group of
      its own: `!chatGroups[name]` is then false, no array is created and `push` is not a
      function of what is found. */
  const PrototypeMembers: set<string> := {
    "constructor", "__defineGetter__", "__defineSetter__", "hasOwnProperty", "__lookupGetter__",
    "__lookupSetter__", "isPrototypeOf", "propertyIsEnumerable", "toString", "valueOf",
    "__proto__", "toLocaleString"
  }

  /** Lines 360-366 as written, on a plain object literal: a chat named after an inherited
      member throws a TypeError. */
  function GroupAsWritten(msgs: seq<Message>): (r: Completion<Groups>)
    ensures r.Normal? ==> forall c :: c in r.value.members ==> c !in PrototypeMembers
  {
    if msgs == [] then Normal(Groups([], map[]))
    else
      match GroupAsWritten(msgs[..|msgs| - 1])
      case Throw => Throw
      case Normal(g) =>
        var m := msgs[|msgs| - 1];
        if m.chat in g.members then Normal(Groups(g.order, g.members[m.chat := g.members[m.chat] + [m]]))
        else if m.chat in PrototypeMembers then Throw
        else Normal(Groups(g.order + [m.chat], g.members[m.chat := [m]]))
  }

  /** The grouping as written agrees with the intended one except that it throws exactly when
      some message belongs to a chat named after an inherited member. */
  lemma {:induction false} GroupAsWrittenThrows(msgs: seq<Message>)
    ensures GroupAsWritten(msgs).Throw? <==> exists i :: 0 <= i < |msgs| && msgs[i].chat in PrototypeMembers
    ensures GroupAsWritten(msgs).Normal? ==> GroupAsWritten(msgs).value == Group(msgs)
  {
    if msgs != [] {
      var init := msgs[..|msgs| - 1];
      GroupAsWrittenThrows(init);
      if exists i :: 0 <= i < |init| && init[i].chat in PrototypeMembers {
        var i :| 0 <= i < |init| && init[i].chat in PrototypeMembers;
        assert msgs[i] == init[i];
      }
      if exists i :: 0 <= i < |msgs| && msgs[i].chat in PrototypeMembers {
        var i :| 0 <= i < |msgs| && msgs[i].chat in PrototypeMembers;
        if i < |init| {
          assert init[i] == msgs[i];
        }
      }
    }
  }

  /** A transcript whose chat is called "constructor": the intended grouping files the message
      under that chat, the grouping as written throws, and the whole event is dropped. */
  lemma ConstructorChatThrows()
    ensures var m := Message("constructor", "01-02 10:00", "Ann", "hi", false);
      && GroupAsWritten([m]) == Throw
      && Group([m]) == Groups(["constructor"], map["constructor" := [m]])
  {
    var m := Message("constructor", "01-02 10:00", "Ann", "hi", false);
    assert [m][..0] == [];
  }

  // ---------------------------------------------------------------------------------------------
  // The order of `Object.entries`

  /** The value of a string of decimal digits. */
  function DecimalValue(s: string): nat {
    if s == [] then 0
    else 10 * DecimalValue(s[..|s| - 1]) + (if IsDigit(s[|s| - 1]) then s[|s| - 1] as int - '0' as int else 0)
  }

  /** A property key that is an array index: the canonical decimal form of an integer below
      2^32 - 1. `Object.entries` lists such keys first, in increasing numeric order. */
  predicate IsArrayIndex(s: string) {
    && s != []
    && AllDigits(s)
    && (s[0] != '0' || |s| == 1)
    && DecimalValue(s) < 0xFFFF_FFFF
  }

  predicate AllDigits(s: string) {
    s == [] || (IsDigit(s[0]) && AllDigits(s[1..]))
  }

  /** The keys with the given kind, in order. */
  function KeysWhere(keys: seq<string>, index: bool): (r: seq<string>)
    ensures forall i :: 0 <= i < |r| ==> IsArrayIndex(r[i]) == index
  {
    if keys == [] then []
    else
      var k := keys[|keys| - 1];
      KeysWhere(keys[..|keys| - 1], index) + (if IsArrayIndex(k) == index then [k] else [])
  }

  /** Keys in increasing numeric order. */
  predicate Ascending(keys: seq<string>) {
    forall i, j :: 0 <= i < j < |keys| ==> DecimalValue(keys[i]) <= DecimalValue(keys[j])
  }

  /** Inserts a key into a list kept in increasing numeric order, before the first larger one. */
  function InsertIndexKey(sorted: seq<string>, k: string): (r: seq<string>)
    ensures multiset(r) == multiset(sorted) + multiset{k}
  {
    if sorted == [] || DecimalValue(k) <= DecimalValue(sorted[0]) then [k] + sorted
    else
      assert sorted == [sorted[0]] + sorted[1..];
      [sorted[0]] + InsertIndexKey(sorted[1..], k)
  }

  lemma {:induction false} InsertKeepsBound(sorted: seq<string>, k: string, b: nat)
    requires forall i :: 0 <= i < |sorted| ==> b <= DecimalValue(sorted[i])
    requires b <= DecimalValue(k)
    ensures forall i :: 0 <= i < |InsertIndexKey(sorted, k)| ==> b <= DecimalValue(InsertIndexKey(sorted, k)[i])
  {
    if sorted != [] && DecimalValue(k) > DecimalValue(sorted[0]) {
      InsertKeepsBound(sorted[1..], k, b);
    }
  }

  /** Insertion keeps the list in increasing order. */
  lemma {:induction false} InsertAscending(sorted: seq<string>, k: string)
    requires Ascending(sorted)
    ensures Ascending(InsertIndexKey(sorted, k))
  {
    if sorted != [] && DecimalValue(k) > DecimalValue(sorted[0]) {
      InsertAscending(sorted[1..], k);
      InsertKeepsBound(sorted[1..], k, DecimalValue(sorted[0]));
    }
  }

  /** The keys sorted by value (an insertion sort; the sort of `Object.entries` is stable, and
      array-index keys are distinct, so any correct sort gives the same list). */
  function SortIndexKeys(keys: seq<string>): (r: seq<string>)
    ensures multiset(r) == multiset(keys)
    ensures Ascending(r)
  {
    if keys == [] then []
    else
      assert keys == keys[..|keys| - 1] + [keys[|keys| - 1]];
      InsertAscending(SortIndexKeys(keys[..|keys| - 1]), keys[|keys| - 1]);
      InsertIndexKey(SortIndexKeys(keys[..|keys| - 1]), keys[|keys| - 1])
  }

  lemma KeysWhereStep(init: seq<string>, k: string, index: bool)
    ensures IsArrayIndex(k) == index ==> KeysWhere(init + [k], index) == KeysWhere(init, index) + [k]
    ensures IsArrayIndex(k) != index ==> KeysWhere(init + [k], index) == KeysWhere(init, index)
  {
    assert (init + [k])[..|init|] == init;
  }

  /** Sending one more key to one of two parts keeps the parts a split of the keys. */
  lemma SplitStep(yes: seq<string>, no: seq<string>, init: seq<string>, k: string)
    requires multiset(yes) + multiset(no) == multiset(init)
    ensures multiset(yes + [k]) + multiset(no) == multiset(init + [k])
    ensures multiset(yes) + multiset(no + [k]) == multiset(init + [k])
  {
  }

  lemma {:induction false} KeysWhereSplit(keys: seq<string>)
    ensures multiset(KeysWhere(keys, true)) + multiset(KeysWhere(keys, false)) == multiset(keys)
  {
    if keys != [] {
      var init := keys[..|keys| - 1];
      var k := keys[|keys| - 1];
      assert keys == init + [k];
      KeysWhereSplit(init);
      KeysWhereStep(init, k, true);
      KeysWhereStep(init, k, false);
      var yes, no := KeysWhere(init, true), KeysWhere(init, false);
      SplitStep(yes, no, init, k);
      if IsArrayIndex(k) {
        assert KeysWhere(keys, true) == yes + [k] && KeysWhere(keys, false) == no;
      } else {
        assert KeysWhere(keys, true) == yes && KeysWhere(keys, false) == no + [k];
      }
    }
  }

  /** No key is an array index. */
  predicate NoIndexKeys(keys: seq<string>) {
    forall i :: 0 <= i < |keys| ==> !IsArrayIndex(keys[i])
  }

  lemma {:induction false} KeysWhereNoIndex(keys: seq<string>)
    ensures NoIndexKeys(keys) ==> KeysWhere(keys, false) == keys
  {
    if keys != [] && NoIndexKeys(keys) {
      var init := keys[..|keys| - 1];
      KeysWhereNoIndex(init);
      assert keys == init + [keys[|keys| - 1]];
    }
  }

  /** `a` comes before `b` in `keys`. */
  predicate InOrder(keys: seq<string>, a: string, b: string) {
    exists p, q :: 0 <= p < q < |keys| && keys[p] == a && keys[q] == b
  }

  /** Picking the keys of one kind keeps their order. */
  lemma {:induction false} KeysWhereKeepsOrder(keys: seq<string>, index: bool)
    ensures forall i :: 0 <= i < |KeysWhere(keys, index)| ==> KeysWhere(keys, index)[i] in keys
    ensures forall i, j :: 0 <= i < j < |KeysWhere(keys, index)| ==>
      InOrder(keys, KeysWhere(keys, index)[i], KeysWhere(keys, index)[j])
  {
    if keys != [] {
      var init, k := keys[..|keys| - 1], keys[|keys| - 1];
      assert keys == init + [k];
      KeysWhereKeepsOrder(init, index);
      KeysWhereStep(init, k, index);
      var r0, r := KeysWhere(init, index), KeysWhere(keys, index);
      forall i | 0 <= i < |r| ensures r[i] in keys {
        if i < |r0| {
          assert r[i] == r0[i];
        }
      }
      forall i, j | 0 <= i < j < |r| ensures InOrder(keys, r[i], r[j]) {
        if j < |r0| {
          var p, q :| 0 <= p < q < |init| && init[p] == r0[i] && init[q] == r0[j];
          assert keys[p] == init[p] && keys[q] == init[q];
        } else {
          assert r[i] == r0[i] && r[j] == k;
          var p :| 0 <= p < |init| && init[p] == r0[i];
          assert keys[p] == init[p] && keys[|init|] == k;
        }
      }
    }
  }

  /** A reordering of array-index keys holds only array-index keys. */
  lemma ReorderedIndexKeys(a: seq<string>, b: seq<string>)
    requires forall i :: 0 <= i < |a| ==> IsArrayIndex(a[i])
    requires multiset(a) == multiset(b)
    ensures forall i :: 0 <= i < |b| ==> IsArrayIndex(b[i])
  {
    forall i | 0 <= i < |b| ensures IsArrayIndex(b[i]) {
      assert b[i] in multiset(a);
    }
  }

  /** The order in which `Object.entries` lists the keys of an object whose keys were added in
      the order `keys`: array indices first by increasing value, then the other keys in the
      order they were added. */
  function EntryOrder(keys: seq<string>): (r: seq<string>)
    ensures multiset(r) == multiset(keys)
  {
    KeysWhereSplit(keys);
    SortIndexKeys(KeysWhere(keys, true)) + KeysWhere(keys, false)
  }

  /** The entry order is a reordering of the keys that puts the array indices first, in
      increasing numeric order, and reorders nothing when no key is an array index. */
  lemma EntryOrderSorted(keys: seq<string>)
    ensures var r := EntryOrder(keys);
      && (forall i, j :: 0 <= i < j < |r| && IsArrayIndex(r[j]) ==>
            IsArrayIndex(r[i]) && DecimalValue(r[i]) <= DecimalValue(r[j]))
      && (forall i, j :: 0 <= i < j < |r| && !IsArrayIndex(r[i]) ==>
            !IsArrayIndex(r[j]) && InOrder(keys, r[i], r[j]))
      && (NoIndexKeys(keys) ==> r == keys)
  {
    var index := KeysWhere(keys, true);
    var others := KeysWhere(keys, false);
    var sorted := SortIndexKeys(index);
    ReorderedIndexKeys(index, sorted);
    var r := sorted + others;
    assert r == EntryOrder(keys);
    forall i, j | 0 <= i < j < |r| && IsArrayIndex(r[j])
      ensures IsArrayIndex(r[i]) && DecimalValue(r[i]) <= DecimalValue(r[j])
    {
      if j < |sorted| {
        assert r[i] == sorted[i] && r[j] == sorted[j];
      }
    }
    EntryOrderOthers(keys);
    KeysWhereNoIndex(keys);
    if NoIndexKeys(keys) {
      assert multiset(index) == multiset{} by {
        KeysWhereSplit(keys);
      }
      assert index == [];
    }
  }

  /** After the first name that is not an array index, entry order keeps insertion order. */
  lemma EntryOrderOthers(keys: seq<string>)
    ensures var r := EntryOrder(keys);
      forall i, j :: 0 <= i < j < |r| && !IsArrayIndex(r[i]) ==> !IsArrayIndex(r[j]) && InOrder(keys, r[i], r[j])
  {
    var index := KeysWhere(keys, true);
    var sorted := SortIndexKeys(index);
    ReorderedIndexKeys(index, sorted);
    KeysWhereKeepsOrder(keys, false);
    IndexKeysFirst(keys, sorted, KeysWhere(keys, false));
  }

  /** Array-index names followed by names in insertion order: every name that is not an index
      is followed only by such names, later in `keys`. */
  lemma IndexKeysFirst(keys: seq<string>, sorted: seq<string>, others: seq<string>)
    requires forall i :: 0 <= i < |sorted| ==> IsArrayIndex(sorted[i])
    requires forall i :: 0 <= i < |others| ==> !IsArrayIndex(others[i])
    requires forall i, j :: 0 <= i < j < |others| ==> InOrder(keys, others[i], others[j])
    ensures var r := sorted + others;
      forall i, j :: 0 <= i < j < |r| && !IsArrayIndex(r[i]) ==> !IsArrayIndex(r[j]) && InOrder(keys, r[i], r[j])
  {
    var r := sorted + others;
    forall i, j | 0 <= i < j < |r| && !IsArrayIndex(r[i])
      ensures !IsArrayIndex(r[j]) && InOrder(keys, r[i], r[j])
    {
      assert r[i] == others[i - |sorted|] && r[j] == others[j - |sorted|];
    }
  }

  /** Listing keys in entry order loses none and adds none. */
  lemma EntryOrderKeepsKeys(keys: seq<string>)
    ensures forall c :: c in EntryOrder(keys) <==> c in keys
  {
    forall c ensures c in EntryOrder(keys) <==> c in keys {
      assert c in EntryOrder(keys) <==> c in multiset(EntryOrder(keys));
      assert c in keys <==> c in multiset(keys);
    }
  }

  // ---------------------------------------------------------------------------------------------
  // Rendering

  /** The line of one message (lines 373-377). */
  function MessageLine(m: Message): (r: string)
    ensures m.outgoing ==> r == "   │ [" + m.timestamp + "] → " + m.text + "\n"
    ensures !m.outgoing ==> r == "   │ [" + m.timestamp + " " + m.sender + "] " + m.text + "\n"
  {
    if m.outgoing then "   │ [" + m.timestamp + "] → " + m.text + "\n"
    else "   │ [" + m.timestamp + " " + m.sender + "] " + m.text + "\n"
  }

  function MessageLines(msgs: seq<Message>): string {
    if msgs == [] then [] else MessageLines(msgs[..|msgs| - 1]) + MessageLine(msgs[|msgs| - 1])
  }

  /** One chat's block (lines 370-380). */
  function ChatBlock(chat: string, msgs: seq<Message>): string {
    "   ┌─ " + chat + "\n" + MessageLines(msgs) + "\n"
  }

  /** Every chat of the list has a group. */
  predicate Listed(chats: seq<string>, members: map<string, seq<Message>>) {
    forall i :: 0 <= i < |chats| ==> chats[i] in members
  }

  /** The entries of a grouping are chats that have a group. */
  lemma EntriesListed(g: Groups)
    requires forall c :: c in g.members <==> c in g.order
    ensures Listed(EntryOrder(g.order), g.members)
  {
    EntryOrderKeepsKeys(g.order);
  }

  /** The blocks of the listed chats, in order. */
  function Blocks(chats: seq<string>, members: map<string, seq<Message>>): string
    requires Listed(chats, members)
  {
    if chats == [] then []
    else Blocks(chats[..|chats| - 1], members) + ChatBlock(chats[|chats| - 1], members[chats[|chats| - 1]])
  }

  /** The rendering of a list of messages. */
  function Rendered(msgs: seq<Message>): string {
    var g := Group(msgs);
    EntriesListed(g);
    Header + Blocks(EntryOrder(g.order), g.members)
  }

  /** The whole rendering of lines 312-384. */
  function WhatsAppMessages(text: string): string {
    Rendered(Scan(Split(text, '\n')).messages)
  }

  /** The blocks of the chats when each chat's block is built from the chat's own messages. */
  function BlocksOf(chats: seq<string>, msgs: seq<Message>): string {
    if chats == [] then []
    else BlocksOf(chats[..|chats| - 1], msgs) + ChatBlock(chats[|chats| - 1], OfChat(msgs, chats[|chats| - 1]))
  }

  lemma {:induction false} BlocksAreChats(chats: seq<string>, g: Groups, msgs: seq<Message>)
    requires Listed(chats, g.members)
    requires forall c :: c in g.members ==> g.members[c] == OfChat(msgs, c)
    ensures Blocks(chats, g.members) == BlocksOf(chats, msgs)
  {
    if chats != [] {
      BlocksAreChats(chats[..|chats| - 1], g, msgs);
    }
  }

  /** The rendering lists every chat that has a message once, in `Object.entries` order, and
      under each chat exactly that chat's messages in the order they were read. */
  lemma RenderingIsByChat(msgs: seq<Message>)
    ensures var chats := EntryOrder(Group(msgs).order);
      && (forall i, j :: 0 <= i < j < |chats| ==> chats[i] != chats[j])
      && (forall c :: c in chats <==> exists i :: 0 <= i < |msgs| && msgs[i].chat == c)
      && (forall i, j :: 0 <= i < j < |chats| && IsArrayIndex(chats[j]) ==>
            IsArrayIndex(chats[i]) && DecimalValue(chats[i]) <= DecimalValue(chats[j]))
      && (forall i, j :: 0 <= i < j < |chats| && !IsArrayIndex(chats[i]) ==>
            !IsArrayIndex(chats[j]) && SeenBefore(msgs, chats[i], chats[j]))
      && Rendered(msgs) == Header + BlocksOf(chats, msgs)
  {
    ChatOrder(msgs);
    var g := Group(msgs);
    GroupOrderDistinct(msgs);
    GroupChats(msgs);
    GroupMembers(msgs);
    var chats := EntryOrder(g.order);
    DistinctKept(g.order, chats);
    EntryOrderKeepsKeys(g.order);
    EntriesListed(g);
    BlocksAreChats(chats, g, msgs);
  }

  /** Chats named by array indices come first, by value; the others follow in the order of
      their first message. */
  lemma ChatOrder(msgs: seq<Message>)
    ensures var chats := EntryOrder(Group(msgs).order);
      && (forall i, j :: 0 <= i < j < |chats| && IsArrayIndex(chats[j]) ==>
            IsArrayIndex(chats[i]) && DecimalValue(chats[i]) <= DecimalValue(chats[j]))
      && (forall i, j :: 0 <= i < j < |chats| && !IsArrayIndex(chats[i]) ==>
            !IsArrayIndex(chats[j]) && SeenBefore(msgs, chats[i], chats[j]))
  {
    var order := Group(msgs).order;
    EntryOrderSorted(order);
    GroupFirstSeen(msgs);
    FirstSeenKept(msgs, order, EntryOrder(order));
  }

  /** Names in first-seen order stay in first-seen order wherever a listing keeps them in order. */
  lemma FirstSeenKept(msgs: seq<Message>, order: seq<string>, chats: seq<string>)
    requires forall i, j :: 0 <= i < j < |order| ==> SeenBefore(msgs, order[i], order[j])
    requires forall i, j :: 0 <= i < j < |chats| && !IsArrayIndex(chats[i]) ==>
      !IsArrayIndex(chats[j]) && InOrder(order, chats[i], chats[j])
    ensures forall i, j :: 0 <= i < j < |chats| && !IsArrayIndex(chats[i]) ==>
      !IsArrayIndex(chats[j]) && SeenBefore(msgs, chats[i], chats[j])
  {
    forall i, j | 0 <= i < j < |chats| && !IsArrayIndex(chats[i])
      ensures SeenBefore(msgs, chats[i], chats[j])
    {
      assert InOrder(order, chats[i], chats[j]);
      var p, q :| 0 <= p < q < |order| && order[p] == chats[i] && order[q] == chats[j];
    }
  }


  /** A reordering of distinct keys has distinct keys. */
  lemma DistinctKept(a: seq<string>, b: seq<string>)
    requires forall i, j :: 0 <= i < j < |a| ==> a[i] != a[j]
    requires multiset(a) == multiset(b)
    ensures forall i, j :: 0 <= i < j < |b| ==> b[i] != b[j]
  {
    forall i, j | 0 <= i < j < |b| ensures b[i] != b[j] {
      if b[i] == b[j] {
        assert multiset(b)[b[i]] >= 2 by {
          assert b == b[..i] + [b[i]] + b[i + 1..j] + [b[j]] + b[j + 1..];
        }
        MultisetOfDistinct(a, b[i]);
      }
    }
  }

  lemma {:induction false} MultisetOfDistinct(a: seq<string>, x: string)
    requires forall i, j :: 0 <= i < j < |a| ==> a[i] != a[j]
    ensures multiset(a)[x] <= 1
  {
    if a != [] {
      var init := a[..|a| - 1];
      MultisetOfDistinct(init, x);
      assert a == init + [a[|a| - 1]];
      if a[|a| - 1] == x {
        assert x !in init;
      }
    }
  }

  // ---------------------------------------------------------------------------------------------
  // The imperative renderer

  /** The first pass (lines 316-357). */
  method ReadMessages(lines: seq<string>) returns (currentChat: Option<string>, messages: seq<Message>)
    ensures ScanState(currentChat, messages) == Scan(lines)
  {
    currentChat := None;
    messages := [];
    var i := 0;
    while i < |lines|
      invariant i <= |lines|
      invariant ScanState(currentChat, messages) == Scan(lines[..i])
    {
      var line := lines[i];
      assert lines[..i + 1][..i] == lines[..i];
      if IsBlank(line) {
      } else if IsHeaderLine(line) {
        var chatMatch := ChatCapture(line);
        if chatMatch.Some? {
          currentChat := Some(Trim(chatMatch.value));
        }
      } else {
        var msgMatch := MessageMatch(line);
        if msgMatch.Some? {
          messages := messages + [FromMatch(currentChat, msgMatch.value)];
        } else if FallbackLine(line) {
          messages := messages + [FromFallback(currentChat, line)];
        }
      }
      i := i + 1;
    }
    assert lines[..i] == lines;
  }

  /** The grouping pass (lines 360-366), with the order in which chats were added. */
  method GroupMessages(messages: seq<Message>) returns (order: seq<string>, chatGroups: map<string, seq<Message>>)
    ensures Groups(order, chatGroups) == Group(messages)
  {
    order := [];
    chatGroups := map[];
    var j := 0;
    while j < |messages|
      invariant j <= |messages|
      invariant Groups(order, chatGroups) == Group(messages[..j])
    {
      var msg := messages[j];
      assert messages[..j + 1][..j] == messages[..j];
      if msg.chat !in chatGroups {
        // a new group, created holding this first message
        order := order + [msg.chat];
        chatGroups := chatGroups[msg.chat := [msg]];
      } else {
        chatGroups := chatGroups[msg.chat := chatGroups[msg.chat] + [msg]];
      }
      j := j + 1;
    }
    assert messages[..j] == messages;
  }

  /** The lines of one chat's messages (lines 372-378). */
  method PrintMessages(msgs: seq<Message>) returns (output: string)
    ensures output == MessageLines(msgs)
  {
    output := [];
    var l := 0;
    while l < |msgs|
      invariant l <= |msgs|
      invariant output == MessageLines(msgs[..l])
    {
      assert msgs[..l + 1][..l] == msgs[..l];
      output := output + MessageLine(msgs[l]);
      l := l + 1;
    }
    assert msgs[..l] == msgs;
  }

  /** The printing pass (lines 369-381), appending to `output`. */
  method PrintGroups(prefix: string, entries: seq<string>, chatGroups: map<string, seq<Message>>) returns (output: string)
    requires Listed(entries, chatGroups)
    ensures output == prefix + Blocks(entries, chatGroups)
  {
    output := prefix;
    var k := 0;
    while k < |entries|
      invariant k <= |entries|
      invariant output == prefix + Blocks(entries[..k], chatGroups)
    {
      var chat := entries[k];
      var lines := PrintMessages(chatGroups[chat]);
      assert entries[..k + 1][..k] == entries[..k];
      ConcatAssoc(prefix, Blocks(entries[..k], chatGroups), ChatBlock(chat, chatGroups[chat]));
      output := output + ("   ┌─ " + chat + "\n" + lines + "\n");
      k := k + 1;
    }
    assert entries[..k] == entries;
  }

  /** `formatWhatsAppMessages`. */
  method FormatWhatsAppMessages(text: string) returns (output: string)
    ensures output == WhatsAppMessages(text)
  {
    var currentChat, messages := ReadMessages(Split(text, '\n'));
    var order, chatGroups := GroupMessages(messages);
    EntriesListed(Groups(order, chatGroups));
    output := PrintGroups(Header, EntryOrder(order), chatGroups);
  }
}
