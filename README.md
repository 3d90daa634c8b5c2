# Verbose event formatter

This project models the verbose event formatter of claude-code-server (`verboseFormatter.js`).
The server runs the agent process and reads its stream-JSON trace one line at a time.
`formatVerboseOutput` turns each line into a display string, or into `null` meaning "skip this
event". The formatter has three layers:

- **The dispatcher** (module `Events`). It classifies an event as one of:
  - system-init;
  - an assistant turn (text items and tool_use items);
  - a user turn carrying tool results;
  - the final result;
  - an event of some other type.

  It renders each class. This layer also holds the tool-name normalisation (module `Names`) and
  the tool-use parameter filter and truncation.
- **The payload sub-formatter** `formatToolResultText` (module `Payload`). It renders the text of
  one tool result. The first format that matches wins, in this order: decoded JSON (list, object
  or scalar), chat transcript, email or calendar entry, file listing, multi-line text, single line.
- **The leaf renderers**:
  - `formatJsonItem` and `formatKeyValue` (module `Values`);
  - the chat-transcript parser `formatWhatsAppMessages` (module `Transcript`);
  - the line classifiers `formatEmailOrCalendar` (module `Email`) and `formatFileListing`
    (module `Files`).

`Json` is a decoded JSON value. An object is the list of its members in property order.
A TypeError that the source's `try` catches is written `Throw` of a `Completion`. This covers
reading a property of `null`, calling `.split` on a number, iterating a non-iterable, and similar
errors. `Each` concatenates what a `for...of` loop appends and throws when any element throws.

The functions (`AssistantText`, `ToolResultBlock`, `ListText`, `PlainText`, `WhatsAppMessages`,
...) state what each renderer produces. The methods (`FormatVerboseOutput`, `FormatUser`,
`FormatPlainText`, `FormatWhatsAppMessages`, ...) build the output with `+=` loops, as the source
does. Each method is proved equal to its function. The lemmas then state the source's promises
about those functions.

Some engine operations are parameters of the model. The `Host` value holds:
- `JSON.parse` (None when it throws);
- compact and pretty `JSON.stringify`;
- `String(number)`;
- `toFixed(1)` of a duration;
- `toFixed(4)`;
- `toLocaleString`.

Every property proved holds for any choice of these operations that meets the lemma's own
`requires`. The regular expressions are
hand-written matchers over characters:
- the MCP prefix `^mcp__[^_]+__`;
- word starts `\b\w`;
- the timestamp `\[\d{2}-\d{2}\s+\d{2}:\d{2}`;
- the chat header `┌─\s*(.+)`;
- the message line;
- the bracket fallback.

Plain text of 2 to 20 non-blank lines is printed whole (`verboseFormatter.js`, lines 253-255).
Only the window shown for more than 20 lines (lines 243-250) cuts each line to 100 characters.

A decoded object that has its own member named `toString` cannot be converted to text: the
member is not a function, so `${v}`, `String(v)` and arithmetic on it throw a TypeError. The
model tracks this with `Json.ToStringThrows` (and `Json.LocaleThrows` for `toLocaleString`), and
every `${...}` of the dispatcher goes through `Json.TemplateText`, which throws for such values.

## Model

| member | source | states |
|---|---|---|
| Events.FormatVerboseOutput | verboseFormatter.js:1-168 | The `try`/`catch` dispatcher computes exactly `VerboseOutput`: a parse failure or a thrown TypeError gives null, otherwise the output of the first branch that applies. A TypeError includes a system, error, result or unknown-type field that cannot be converted to text |
| Events.SystemTextThrows | verboseFormatter.js:6-8 | The system line throws exactly when the session id or the model cannot be converted to text. Otherwise it is exactly `🔧 System initialized`, the session line with the session id, and the `Model:` line with the model |
| Events.SkippedEvents | verboseFormatter.js:1-168 | The result is null when the line is not JSON, when the event has no truthy `type`, for a system event that is not `init`, for an assistant event without a message, and for a user event without a message or whose tool results add up to nothing |
| Events.EmptyAssistantIsKept | verboseFormatter.js:11-77 | An assistant event whose items produce nothing returns the empty string, not null |
| Events.UnknownTypeShown | verboseFormatter.js:157-160 | Any truthy `type` other than the four handled ones gives a non-null result exactly when the type can be converted to text. The line starts `🔍 [type] `, and its raw part is a prefix of the event's compact JSON of at most 100 characters |
| Events.EachAppend | verboseFormatter.js:85-126 | What a loop appends over `a + b` is what it appends over `a` followed by what it appends over `b`: items keep their order, and a later item is rendered whatever an earlier one produced |
| Events.EachThrows | verboseFormatter.js:2-167 | One element whose rendering throws makes the whole loop, and so the whole event, throw |
| Events.ThenAssoc | verboseFormatter.js:13-27 | Appending evaluations one after another does not depend on grouping |
| Events.OneLineText | verboseFormatter.js:19-21 | Text without a line break is shown as one `💭 Claude: text` line between line breaks |
| Events.SinglePartHasNoNewline | verboseFormatter.js:19-20 | A text whose split has one part holds no line break |
| Events.OneLineTextIsUnlines | verboseFormatter.js:20-21 | One-line text is rendered as the empty line followed by the label line |
| Events.ManyLineText | verboseFormatter.js:22-27 | Multi-line text is shown as the bare label line, then every line of the text, in order, indented by three spaces |
| Events.FormatAssistantItem | verboseFormatter.js:17-72 | The rendering of one assistant item equals `AssistantItem`: text, tool use, or nothing for other types, and a throw for a null item or a non-string text or name |
| Events.FormatAssistant | verboseFormatter.js:13-76 | The assistant loop equals `AssistantText`: nothing when the content is falsy, a throw when it is not iterable, otherwise the items in order |
| Names.StripMcpPrefix | verboseFormatter.js:31 | The name is unchanged, or the result is the tool part of an `mcp__<server>__<tool>` name whose server is non-empty and has no underscore |
| Names.StripsMcpName | verboseFormatter.js:31 | Every `mcp__<server>__<tool>` name with a non-empty, underscore-free server loses exactly its prefix |
| Names.ReplaceUnderscores | verboseFormatter.js:32 | Every underscore becomes a space in place, every other character is unchanged, and the length is kept, so no underscore is left |
| Names.TitleCase | verboseFormatter.js:33 | Exactly the characters that start a word are upper-cased |
| Names.TitleCaseWordStarts | verboseFormatter.js:33 | Title-casing keeps the word starts where they were, and each of them is no longer lower case |
| Names.TitleCaseIdempotent | verboseFormatter.js:33 | Title-casing twice is title-casing once |
| Names.ToolName | verboseFormatter.js:30-33 | The shown tool name has no underscore, has the length of the stripped name, and starts every word with a character that is not lower case |
| Names.ToolNameIdempotent | verboseFormatter.js:30-33 | Normalising a normalised tool name changes nothing |
| Names.HumanKey | verboseFormatter.js:49 | A humanised key keeps the length, has no underscore, and starts every word with a character that is not lower case (a word starting with a digit keeps it) |
| Names.HumanKeyOneLine | verboseFormatter.js:49 | Humanising a key adds no line break |
| Events.Kept | verboseFormatter.js:40-46 | An entry survives the filter exactly when its key is not `user_google_email` and its value is neither null nor the empty string |
| Events.KeptAppend | verboseFormatter.js:39-46 | Filtering commutes with concatenation, so survivors keep their input order |
| Events.ParamValue | verboseFormatter.js:52-64 | A string longer than 80 characters is shown as its first 77 characters and `...` inside quotes. Compact JSON of an array or object is kept if it is at most 80 characters, otherwise cut to 77 characters plus `...`, so it never exceeds 80. Anything else is its compact JSON |
| Events.ParamLines | verboseFormatter.js:47-67 | There is one `   → Key: value` line per surviving entry, in order |
| Events.ParamsOneLineEach | verboseFormatter.js:39-68 | The joined parameter text splits back into exactly the parameter lines, one per survivor, in input order |
| Events.ParamTextEmpty | verboseFormatter.js:39-70 | The parameter text is empty exactly when no entry survives the filter |
| Events.NoParamsNoLines | verboseFormatter.js:35-71 | When the input is falsy or no entry survives, the tool use is only its `🔧 Using tool:` line |
| Events.ToolTag | verboseFormatter.js:90-92 | A falsy id adds nothing. A string id adds ` [`, then exactly the first min(8, length) characters of the id, then `]`. Any other truthy id throws |
| Events.ErrorResultSkipsContent | verboseFormatter.js:96-102 | An error result's block depends only on its id, error and details, never on its content items |
| Events.ErrorLinesShape | verboseFormatter.js:97-100 | An error result throws exactly when its error or its details cannot be converted to text. Otherwise it shows one error line, defaulting to `Unknown error`, and a `Details:` line exactly when `error_details` is truthy |
| Events.ErrorLinesThrows | verboseFormatter.js:97-100 | For every item, the error lines throw exactly when the error or the details cannot be converted to text |
| Events.FormatResultItem | verboseFormatter.js:107-120 | The rendering of one result item equals `ResultItem`: trimmed text through the payload formatter, the image and document lines, or the type with 100 characters of compact JSON; a document name or an item type that cannot be converted to text throws |
| Events.FormatResultItems | verboseFormatter.js:105-121 | The item loop equals `Each` over the items |
| Events.FormatToolResult | verboseFormatter.js:86-125 | The block of one tool result equals `ToolResultBlock`: head, tag, then the error lines or the content |
| Events.FormatUserItem | verboseFormatter.js:84-125 | The rendering of one user item equals `UserItem`: a null item throws, a `tool_result` item prints its block, any other item prints nothing |
| Events.FormatUser | verboseFormatter.js:82-127 | The user loop equals `UserText`: only `tool_result` items produce output, in order |
| Events.OutcomeThrows | verboseFormatter.js:134-155 | An error result throws exactly when its result or code cannot be converted to text. A success throws exactly when its truthy duration cannot be divided, its truthy cost is not a number, or its truthy token count has no locale text. The text starts `❌ Error: ` or `✅ Success` accordingly |
| Payload.FormatToolResultText | verboseFormatter.js:171-264 | The sub-formatter equals `ToolResultText`: decoded JSON first, then the sniffed format |
| Payload.Sniff | verboseFormatter.js:223-237 | The four formats are tried in a fixed order: each is chosen exactly when it matches and no earlier one does |
| Payload.EmptyTextIsSilent | verboseFormatter.js:257-263 | Empty text that does not parse produces nothing |
| Payload.FormatJsonData | verboseFormatter.js:179-216 | Decoded JSON is rendered as a list, an object or a `→` scalar line |
| Payload.FormatList | verboseFormatter.js:181-198 | The list loop equals `ListText` |
| Payload.AppendItems | verboseFormatter.js:186-197 | Appending numbered items keeps their order and numbers them consecutively |
| Payload.Range | verboseFormatter.js:186-196 | Definition: the label list runs through consecutive numbers |
| Payload.LabelsArePositions | verboseFormatter.js:186-196 | A run of items starting at position `a` is numbered `a + 1` onwards, each by its position |
| Payload.WholeListLabels | verboseFormatter.js:195-197 | Each item of a whole list is numbered by its position from 1 |
| Payload.ShortListShowsAll | verboseFormatter.js:193-198 | A list of 1 to 10 items shows every item, numbered 1 to n |
| Payload.LongListShowsEnds | verboseFormatter.js:183-192 | A list of more than 10 items shows items 1 to 5, a count of the hidden items from 6 to n−2 (n−7 of them), then items n−1 and n |
| Payload.FormatObject | verboseFormatter.js:199-210 | The object loop equals `ObjectText` |
| Payload.AppendMembers | verboseFormatter.js:206-209 | Appending members keeps them in property order |
| Payload.MemberTextIsLines | verboseFormatter.js:206-209 | The object body is one key-value line per member, in order |
| Payload.MemberLineOneLine | verboseFormatter.js:206-209 | A member without line breaks renders with none |
| Payload.ObjectOneLinePerMember | verboseFormatter.js:199-210 | A non-empty object renders as the `Data:` header and then exactly one line per member |
| Payload.FormatWindow | verboseFormatter.js:243-250 | The long-text loop writes exactly the lines of `Window` |
| Payload.FormatPlainText | verboseFormatter.js:240-260 | The plain-text loop equals `PlainText` |
| Payload.AppendLines | verboseFormatter.js:245-255 | Appending mapped lines keeps their order |
| Payload.ShortTextShowsAll | verboseFormatter.js:241-256 | Text of 2 to 20 non-blank lines shows every one of them, indented and uncut |
| Payload.WindowShape | verboseFormatter.js:242-251 | The long-text window is the count header, the first 10 lines, a `more lines` count of the hidden middle (n−12 lines), and the last 2 lines |
| Payload.WindowOneLine | verboseFormatter.js:242-251 | No window line holds a line break |
| Payload.LongTextShowsEnds | verboseFormatter.js:242-251 | Text of more than 20 non-blank lines renders as 14 lines: the header, the first 10 and last 2 lines cut to 100 characters, and the count of the n−12 hidden lines |
| Payload.CutLinesOneLine | verboseFormatter.js:245-251 | Cutting a line adds no line break |
| Payload.KeptLinesOneLine | verboseFormatter.js:240 | The lines kept from a split hold no line break |
| Payload.DigitsOneLine | verboseFormatter.js:244-248 | A count adds no line break |
| Values.TruthyKeys | verboseFormatter.js:271-272 | The keys kept are preferred keys whose member is truthy, and there are no more of them than preferred keys |
| Values.Summary | verboseFormatter.js:270-275 | There is one part per truthy preferred key, and the summary is empty exactly when no preferred key has a truthy value |
| Values.SummaryIsParts | verboseFormatter.js:271-275 | Part j is exactly the j-th key of `TruthyKeys`, then `: `, then the first 50 characters of `String` of that key's value |
| Values.SummaryPartsNameKeys | verboseFormatter.js:271-275 | Every part starts with some preferred key and `: `, and is no longer than the longest key plus 52 characters |
| Values.SummaryAppend | verboseFormatter.js:271-275 | Summarising two key lists in turn gives the two summaries one after the other: the `forEach` adds parts in key order |
| Values.SummaryStartsWithFirstKey | verboseFormatter.js:271-273 | When the first key is truthy, the first part is that key, `: ` and the first 50 characters of its value (of the string itself for a string member) |
| Values.JsonItem | verboseFormatter.js:267-282 | Each item starts with `   index. ` and ends with a line break. An object with a truthy preferred key shows its summary parts joined by `, `. An object or array without one shows the first 100 characters of `JSON.stringify`. Any other value shows the first 100 characters of `String` |
| Values.JsonItemLeadsWithName | verboseFormatter.js:271-277 | An object with a non-empty string `name` is shown starting with `name: ` and the first 50 characters of the name |
| Values.ValueText | verboseFormatter.js:285-306 | null gives `null`, booleans give `✓`/`✗`, a string is quoted and cut to 97 characters plus `...` when longer than 100, an array gives `[N items]` and an object `{N fields}` |
| Values.KeyValue | verboseFormatter.js:285-309 | The line is `      • key: ` followed by the value's text and a line break |
| Values.KeyValueIsOneLine | verboseFormatter.js:285-309 | For a key and value without line breaks, the key-value text is exactly one line |
| Transcript.FormatWhatsAppMessages | verboseFormatter.js:312-384 | The transcript renderer equals `WhatsAppMessages`: parse pass, grouping pass, rendering pass |
| Transcript.ReadMessages | verboseFormatter.js:316-357 | The parse loop computes the current chat and the message list of `Scan` |
| Transcript.ScanLine | verboseFormatter.js:320-356 | A matched message line appends exactly `FromMatch` of its match. A bracketed line that does not match appends exactly `FromFallback` of the line. Any other line adds no message. Only a header line can change the current chat |
| Transcript.ScanCountsMessages | verboseFormatter.js:320-357 | The number of messages is the number of message lines |
| Transcript.NoHeaderMeansUnknown | verboseFormatter.js:316-349 | Without a `┌─` header every message belongs to the chat `Unknown` |
| Transcript.HeaderNamesChat | verboseFormatter.js:324-329 | A `┌─ name` line makes the trimmed name the current chat |
| Transcript.BlankHeaderResetsChat | verboseFormatter.js:324-338 | A `┌─` header with no name sets the chat to the empty name, which files messages under `Unknown` |
| Transcript.CaptureOfName | verboseFormatter.js:325 | The header match captures the name after the mark, with leading spaces dropped |
| Transcript.MarkedLineIsHeader | verboseFormatter.js:324-325 | A line that starts with `┌─` is a header line, never a message |
| Transcript.ChatCapture | verboseFormatter.js:325 | A capture is non-empty and holds no line terminator, and there is none without the mark |
| Transcript.MessageMatch | verboseFormatter.js:333 | A matched message has a timestamp that starts with a digit and is at least 11 characters long, and a sender, when present, that is non-empty and holds no `]` |
| Transcript.FromMatch | verboseFormatter.js:335-343 | A missing sender means sender `Me` and outgoing. Otherwise the message is outgoing exactly when its text starts with `→`. A leading `→` is dropped from the text |
| Transcript.FromFallback | verboseFormatter.js:344-355 | A fallback message has no timestamp, sender `Unknown`, the trimmed line as text, and is outgoing exactly when the line holds `→` |
| Transcript.ChatName | verboseFormatter.js:338 | Messages go to the current chat, or to `Unknown` when there is none or it is empty |
| Transcript.GroupMessages | verboseFormatter.js:359-366 | The grouping loop computes `Group` |
| Transcript.Group | verboseFormatter.js:359-366 | A chat has a group exactly when it is listed in the group order |
| Transcript.GroupIsPartition | verboseFormatter.js:359-366 | Each chat is listed once, exactly the chats that have messages are listed, and each holds exactly its own messages in input order |
| Transcript.GroupFirstSeen | verboseFormatter.js:361-364 | Chats are listed in the order of their first message: an earlier chat has a message before any message of a later one |
| Transcript.GroupAsWritten | verboseFormatter.js:360-366 | The grouping as written never creates a group for a name it finds on `Object.prototype` |
| Transcript.GroupAsWrittenThrows | verboseFormatter.js:360-366 | The code as written throws exactly when some chat is named after an `Object.prototype` member. Otherwise it agrees with `Group` |
| Transcript.ConstructorChatThrows | verboseFormatter.js:360-366 | A single message in the chat `constructor` makes the grouping throw |
| Transcript.EntryOrderSorted | verboseFormatter.js:369 | `Object.entries` lists integer-like chat names first in increasing value, then the other names in insertion order, and keeps insertion order when there are no integer-like names |
| Transcript.KeysWhereKeepsOrder | verboseFormatter.js:369 | Picking out the names of one kind keeps their insertion order |
| Transcript.EntryOrderOthers | verboseFormatter.js:369 | In `Object.entries` order, a name that is not an array index is followed only by such names, each added later |
| Transcript.EntryOrderKeepsKeys | verboseFormatter.js:369 | Reordering loses and adds no chat |
| Transcript.SortIndexKeys | verboseFormatter.js:369 | The integer-like names are a permutation of themselves in ascending order |
| Transcript.KeysWhereSplit | verboseFormatter.js:369 | The integer-like and other names together are exactly the chat names |
| Transcript.PrintGroups | verboseFormatter.js:369-381 | The rendering loop writes one block per chat, in entry order |
| Transcript.PrintMessages | verboseFormatter.js:372-378 | The message loop writes one line per message, in order |
| Transcript.MessageLine | verboseFormatter.js:373-377 | An outgoing message shows `[time] → text`; any other shows `[time sender] text` |
| Transcript.RenderingIsByChat | verboseFormatter.js:359-383 | The output lists every chat with a message exactly once: integer-like names first in increasing value, then the other chats in the order of their first message. Under each chat come exactly its messages in the order they were read |
| Transcript.ChatOrder | verboseFormatter.js:359-369 | The rendered chat order puts integer-like names first in increasing value, then the other chats in the order of their first message |
| Email.FormatEmailOrCalendar | verboseFormatter.js:387-411 | The loop equals `EmailOrCalendar` |
| Email.EmailLine | verboseFormatter.js:395-407 | A field line is shown trimmed after a bullet. A `Body:` or `Description:` line shows its trimmed content, cut to 100 characters with `...`. Any other line shows its first 100 characters |
| Email.LongFieldLine | verboseFormatter.js:403-404 | The line is `      • `, the field name and `: `, then the content when it has at most 100 characters, or exactly its first 100 characters and `...` when it is longer |
| Email.EmailLineOneLine | verboseFormatter.js:391-407 | Each input line gives exactly one output line |
| Email.EmailOneLinePerLine | verboseFormatter.js:387-411 | The output is the header and then one line per non-blank input line, in order; blank lines are skipped |
| Files.FormatFileListing | verboseFormatter.js:414-439 | The loop equals `FileListing` |
| Files.FieldValue | verboseFormatter.js:424-426 | A field is found exactly when some part starts with its key, and it is that part's trimmed remainder |
| Files.ParseEntry | verboseFormatter.js:423-426 | Each of name, type and size is taken from the first comma-separated, trimmed part that starts with its label, with the label removed and the rest trimmed, and is absent exactly when no part starts with the label |
| Files.EntryLine | verboseFormatter.js:428-432 | A folder is shown as `name/`. A file is shown with its size in parentheses only when the size is non-empty |
| Files.FileLine | verboseFormatter.js:422-435 | Lines holding `Type:` are entries; any other line shows its first 100 characters |
| Files.FileLineOneLine | verboseFormatter.js:418-435 | Each input line gives exactly one output line |
| Files.FileOneLinePerLine | verboseFormatter.js:414-439 | The output is the header and then one line per non-blank input line, in order; blank lines are skipped |
| Strings.JoinSplit | verboseFormatter.js:124 | Splitting and joining on the same separator gives back the text |
| Strings.SplitJoin | verboseFormatter.js:39-68 | Joining parts without the separator and splitting again gives back the parts |
| Strings.SplitUnlines | verboseFormatter.js:253-255 | Lines each written with a trailing line break split back into those lines |
| Strings.NonBlankLines | verboseFormatter.js:240 | Every kept line is a non-blank input line, and every non-blank input line is kept |
| Strings.NonBlankLinesAppend | verboseFormatter.js:240 | Filtering two parts one after the other is filtering the whole, so the filter keeps the order and the repetitions of its input |
| Strings.NonBlankLinesOne | verboseFormatter.js:240 | A single line is kept exactly when it is not blank |
| Strings.Cut | verboseFormatter.js:294-297 | Text within the limit is kept. Longer text keeps its first `keep` characters plus `...` |
| Strings.CutIdempotent | verboseFormatter.js:294-297 | Cutting twice is cutting once |
| Strings.Take | verboseFormatter.js:259 | `substring(0, n)` is a prefix of at most n characters |
| Strings.TrimEnd | verboseFormatter.js:129 | A trimmed-end text does not end in white space |
| Strings.TrimEndDropsTrailingSpace | verboseFormatter.js:129 | `trimEnd` keeps a prefix of the text and drops only white space |
| Strings.TrimStartDropsLeadingSpace | verboseFormatter.js:325 | `trimStart` keeps a suffix of the text and drops only white space |
| Json.Lookup | verboseFormatter.js:6 | A property is undefined exactly when no member has its name; otherwise it is the value of a member with that name |
| Json.Entries | verboseFormatter.js:39 | `Object.entries` lists an object's members in order. For an array it lists element i under the key `String(i)`, and for a string each character as a one-character string under its index. It lists nothing for a number, a boolean or null |
| Json.Iterate | verboseFormatter.js:16 | `for...of` visits an array's items in order, and a string's characters one by one as one-character strings. It throws on anything else |
| Json.TemplateText | verboseFormatter.js:7 | `${v}` throws exactly for a value that cannot be converted to text. `undefined` gives `undefined`, a string gives itself, and an object that converts gives `[object Object]` |
| Json.Then | verboseFormatter.js:13-27 | Definition: two appends succeed exactly when both do, and then give both texts in order |

## Left out

- `server.js` is not part of this model: it holds the HTTP routes, process spawning and stream handling, with no formatting logic.
- `JSON.parse` is not modelled as a grammar. The model takes its result as `Host.parse`, with None for a line that does not parse.
- Duplicate keys in a JSON object are not modelled. A decoded object is taken to have unique keys in property order, so every lookup finds the member `JSON.parse` would keep.
- `JSON.stringify` (compact and two-space indented), `String(number)`, `toFixed(1)`, `toFixed(4)` and `toLocaleString` are uninterpreted `Host` functions. Only how their output is cut, and the truthiness checks that decide whether it appears, are modelled.
- `Stringified` of an array holding `undefined` is not modelled, because a decoded value never contains `undefined`.
- String lengths count `char`s, not UTF-16 code units. Text with characters outside the Basic Multilingual Plane is cut at different places than in the engine.
- The regular expressions are modelled by hand-written matchers for exactly the patterns used. `\s` and `trim` use the ECMAScript white-space and line-terminator characters, and `\d` and `\w` are ASCII.
- The emoji and label texts are string constants and carry no behaviour.
- Values.Summary: `String(item[key])` (line 273) throws for an object member that has its own `toString` member. The source then leaves its `try` with the list lines written so far and falls through to the text formats. The model writes such a member as `[object Object]`, because `Json.Stringified` never throws; `Json.TemplateText` is the conversion that throws, and it is used everywhere else.
- Events.FormatVerboseOutput: tool-result text in transcript form is rendered with the corrected grouping, so a chat named after an `Object.prototype` member (such as `constructor`) is rendered instead of making the event null. See "## Findings". Tool-result text that decodes to a list is also affected by the Values.Summary difference: an item member with its own `toString` member is summarised instead of leaving the JSON branch.
- Values.JsonItem: a summary value is converted with `Json.Stringified`, which never throws. At line 273, `String(item[key])` throws for a member that has its own `toString` member. The source then leaves `formatJsonItem` and its caller's `try`, which the model does not capture.
- Payload.FormatToolResultText: it has both differences of the exported function. A list item whose summary value has its own `toString` member is summarised, where the source stops the list and falls through to the text formats (Values.Summary). Transcript text is grouped with the corrected `Group`, where the source throws for a chat named after an `Object.prototype` member (Transcript.FormatWhatsAppMessages).
- Transcript.FormatWhatsAppMessages: uses the corrected grouping `Group`, not `GroupAsWritten`. A chat named after an `Object.prototype` member is rendered where the source throws. See "## Findings".
- Transcript.WhatsAppMessages: uses the corrected grouping `Group`, for the same reason.
- Transcript.GroupMessages: computes the corrected grouping `Group`. The source's own grouping is `GroupAsWritten`, which `GroupAsWrittenThrows` relates to it.
- Events.ParamValue: the 80-character bound covers the value inside the quotes. The quoted value is 82 characters: 80 characters of content plus two quotes.

## Findings

| source | as written | input that shows it | evidently intended | confidence | as-written member | corrected member |
|---|---|---|---|---|---|---|
| verboseFormatter.js:360-366 | `chatGroups` is a plain object literal, so `chatGroups[msg.chat]` finds inherited members such as `constructor` or `toString`; the group array is then never created and `.push` throws, and the whole event becomes null | a transcript line `┌─ constructor` followed by `[01-02 10:00 Ann] hi` | every chat name gets its own group, whatever it is called | not executed | Transcript.ConstructorChatThrows | Transcript.GroupIsPartition |
