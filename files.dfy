/** `formatFileListing` (verboseFormatter.js:414-439): a header, then one line per non-blank line.
    A line mentioning "Type:" is read as comma-separated "Key: value" parts; a Folder is shown with
    a trailing slash, anything else as a file with its size when one is given. Other lines are cut
    to 100 characters. */
module Files {
  import opened Wrappers
  import opened Strings

  const Header: string := "   📁 Files:"

  /** `parts.map(p => p.trim())`. */
  function TrimAll(parts: seq<string>): (r: seq<string>)
    ensures |r| == |parts| && forall i :: 0 <= i < |r| ==> r[i] == Trim(parts[i])
  {
    seq(|parts|, i requires 0 <= i < |parts| => Trim(parts[i]))
  }

  /** `parts.find(p => p.startsWith(key))?.replace(key, '').trim()`: the trimmed rest of the first
      part that starts with `key` (where `replace` removes that leading occurrence), or undefined. */
  function FieldValue(parts: seq<string>, key: string): (r: Option<string>)
    ensures r.None? <==> forall i :: 0 <= i < |parts| ==> !StartsWith(parts[i], key)
    ensures r.Some? ==> exists i :: 0 <= i < |parts| && StartsWith(parts[i], key)
                                    && r.value == Trim(parts[i][|key|..])
                                    && forall j :: 0 <= j < i ==> !StartsWith(parts[j], key)
  {
    if parts == [] then None
    else if StartsWith(parts[0], key) then Some(Trim(parts[0][|key|..]))
    else
      var r := FieldValue(parts[1..], key);
      assert forall j :: 1 <= j < |parts| ==> parts[j] == parts[1..][j - 1];
      r
  }

  /** What `${name}` writes for a name that may be undefined. */
  function NameText(name: Option<string>): string {
    match name
    case None => "undefined"
    case Some(n) => n
  }

  /** The Name, Type and Size values read from one listing line (lines 423-426). */
  datatype Entry = Entry(name: Option<string>, kind: Option<string>, size: Option<string>)

  /** `v` is what `find` and `replace` give for `key`: undefined when no part starts with the key,
      otherwise the trimmed rest of the first part that does. */
  predicate FirstField(parts: seq<string>, key: string, v: Option<string>) {
    match v
    case None => forall i :: 0 <= i < |parts| ==> !StartsWith(parts[i], key)
    case Some(value) =>
      exists i :: 0 <= i < |parts| && StartsWith(parts[i], key) && value == Trim(parts[i][|key|..])
                  && forall j :: 0 <= j < i ==> !StartsWith(parts[j], key)
  }

  function ParseEntry(line: string): (e: Entry)
    ensures var parts := TrimAll(Split(line, ','));
      && FirstField(parts, "Name:", e.name)
      && FirstField(parts, "Type:", e.kind)
      && FirstField(parts, "Size:", e.size)
  {
    var parts := TrimAll(Split(line, ','));
    Entry(FieldValue(parts, "Name:"), FieldValue(parts, "Type:"), FieldValue(parts, "Size:"))
  }

  /** The line for one entry (lines 428-432): a folder ends with a slash; a file shows its size
      in parentheses exactly when the size is present and not empty. */
  function EntryLine(e: Entry): (r: string)
    ensures e.kind == Some("Folder") ==> r == "      📁 " + NameText(e.name) + "/"
    ensures e.kind != Some("Folder") && e.size.Some? && e.size.value != [] ==>
      r == "      📄 " + NameText(e.name) + " (" + e.size.value + ")"
    ensures e.kind != Some("Folder") && (e.size.None? || e.size.value == []) ==>
      r == "      📄 " + NameText(e.name)
  {
    if e.kind == Some("Folder") then "      📁 " + NameText(e.name) + "/"
    else "      📄 " + NameText(e.name) + (if e.size.Some? && e.size.value != [] then " (" + e.size.value + ")" else "")
  }

  /** The line emitted for one non-blank input line, without its newline (lines 422-435). */
  function FileLine(line: string): (r: string)
    ensures !Contains(line, "Type:") ==> r == "      " + Take(line, 100)
    ensures Contains(line, "Type:") ==> r == EntryLine(ParseEntry(line))
  {
    if Contains(line, "Type:") then EntryLine(ParseEntry(line))
    else "      " + Take(line, 100)
  }

  /** Every character of a joined part is a character of the join. */
  lemma {:induction false} PartOfJoin(parts: seq<string>, i: nat, sep: string)
    requires i < |parts|
    ensures forall c :: c in parts[i] ==> c in Join(parts, sep)
  {
    if i > 0 {
      PartOfJoin(parts[1..], i - 1, sep);
    }
  }

  /** The parts of a line hold no newline when the line holds none. */
  lemma PartsOneLine(line: string)
    requires OneLine(line)
    ensures forall i :: 0 <= i < |TrimAll(Split(line, ','))| ==> OneLine(TrimAll(Split(line, ','))[i])
  {
    var raw := Split(line, ',');
    JoinSplit(line, ',');
    OneLineIff(line);
    forall i | 0 <= i < |raw| ensures OneLine(Trim(raw[i])) {
      PartOfJoin(raw, i, [',']);
      OneLineIff(raw[i]);
      OneLineKept(raw[i], 0);
    }
  }

  /** A value found in one-line parts is on one line. */
  lemma FieldValueOneLine(parts: seq<string>, key: string)
    requires forall i :: 0 <= i < |parts| ==> OneLine(parts[i])
    ensures FieldValue(parts, key).Some? ==> OneLine(FieldValue(parts, key).value)
  {
    if FieldValue(parts, key).Some? {
      var i :| 0 <= i < |parts| && StartsWith(parts[i], key)
               && FieldValue(parts, key).value == Trim(parts[i][|key|..]);
      assert OneLine(parts[i][|key|..]);
      OneLineKept(parts[i][|key|..], 0);
    }
  }

  lemma EntryLineOneLine(e: Entry)
    requires e.name.Some? ==> OneLine(e.name.value)
    requires e.size.Some? ==> OneLine(e.size.value)
    ensures OneLine(EntryLine(e))
  {
  }

  /** A line renders without a newline. */
  lemma FileLineOneLine(line: string)
    requires OneLine(line)
    ensures OneLine(FileLine(line))
  {
    if Contains(line, "Type:") {
      var parts := TrimAll(Split(line, ','));
      PartsOneLine(line);
      FieldValueOneLine(parts, "Name:");
      FieldValueOneLine(parts, "Size:");
      EntryLineOneLine(ParseEntry(line));
    } else {
      OneLineKept(line, 100);
    }
  }

  /** The whole rendering. */
  function FileListing(text: string): string {
    Header + "\n" + Unlines(RenderNonBlank(FileLine, Split(text, '\n')))
  }

  /** The loop of lines 418-436. */
  method FormatFileListing(text: string) returns (output: string)
    ensures output == FileListing(text)
  {
    output := Header + "\n";
    var lines := Split(text, '\n');
    var i := 0;
    while i < |lines|
      invariant i <= |lines|
      invariant output == Header + "\n" + Unlines(RenderNonBlank(FileLine, lines[..i]))
    {
      var line := lines[i];
      assert lines[..i + 1] == lines[..i] + [line];
      RenderNonBlankSnoc(FileLine, lines[..i], line);
      if !IsBlank(line) {
        var piece := FileLine(line) + "\n";
        ConcatAssoc(Header + "\n", Unlines(RenderNonBlank(FileLine, lines[..i])), piece);
        output := output + piece;
      }
      i := i + 1;
    }
    assert lines[..i] == lines;
  }

  /** Below the header there is exactly one output line for each non-blank input line, in input
      order, and it is that line's rendering. */
  lemma FileOneLinePerLine(text: string)
    ensures var kept := NonBlankLines(Split(text, '\n'));
      && Split(FileListing(text), '\n') == [Header] + RenderNonBlank(FileLine, Split(text, '\n')) + [[]]
      && |RenderNonBlank(FileLine, Split(text, '\n'))| == |kept|
      && forall i :: 0 <= i < |kept| ==> RenderNonBlank(FileLine, Split(text, '\n'))[i] == FileLine(kept[i])
  {
    forall l | '\n' !in l ensures '\n' !in FileLine(l) {
      OneLineIff(l);
      FileLineOneLine(l);
      OneLineIff(FileLine(l));
    }
    SplitRenderedLines(FileLine, Header, text);
    RenderNonBlankIsFilterMap(FileLine, Split(text, '\n'));
  }
}
