/** `formatEmailOrCalendar` (verboseFormatter.js:387-411): a header, then one line per non-blank
    line of the text. Header fields are shown trimmed, a Body or Description field with its value
    cut to 100 characters and an ellipsis, and every other line cut to 100 characters. */
module Email {
  import opened Strings

  const Header: string := "   📧 Message Details:"

  /** A line starting with one of the fields shown verbatim (lines 395-400). */
  predicate IsFieldLine(line: string) {
    || StartsWith(line, "Subject:") || StartsWith(line, "From:") || StartsWith(line, "To:")
    || StartsWith(line, "Start:") || StartsWith(line, "End:") || StartsWith(line, "Location:")
  }

  /** A line starting with a field whose value may be long (line 402). */
  predicate IsLongFieldLine(line: string) {
    StartsWith(line, "Body:") || StartsWith(line, "Description:")
  }

  /** The line emitted for one non-blank input line, without its newline (lines 395-407). The
      name of a long field is the text before the line's first colon, and its value the trimmed
      rest of the line. */
  function EmailLine(line: string): (r: string)
    ensures IsFieldLine(line) ==> r == "      • " + Trim(line)
    ensures !IsFieldLine(line) && StartsWith(line, "Body:") ==>
      r == LongFieldLine("Body", Trim(line[5..]))
    ensures !IsFieldLine(line) && StartsWith(line, "Description:") ==>
      r == LongFieldLine("Description", Trim(line[12..]))
    ensures !IsFieldLine(line) && !IsLongFieldLine(line) ==> r == "      " + Take(line, 100)
  {
    if IsFieldLine(line) then
      "      • " + Trim(line)
    else if IsLongFieldLine(line) then
      var k := IndexOf(line, ':');
      assert StartsWith(line, "Body:") ==> line[4] == ':' && k == 4 && line[..k] == "Body";
      assert StartsWith(line, "Description:") ==>
        line[11] == ':' && k == 11 && line[..k] == "Description";
      LongFieldLine(line[..k], Trim(line[k + 1..]))
    else
      "      " + Take(line, 100)
  }

  /** "      • <name>: <value>" with the value cut to 100 characters and an ellipsis. */
  function LongFieldLine(name: string, content: string): (r: string)
    ensures StartsWith(r, "      • " + name + ": ")
    ensures |r| <= |"      • " + name + ": "| + 103
    ensures |content| <= 100 ==> r[|"      • " + name + ": "|..] == content
    ensures |content| > 100 ==> r[|"      • " + name + ": "|..] == content[..100] + "..."
  {
    var prefix := "      • " + name + ": ";
    var r := prefix + Cut(content, 100, 100);
    assert r[..|prefix|] == prefix;
    r
  }

  lemma LongFieldLineOneLine(name: string, content: string)
    requires OneLine(name) && OneLine(content)
    ensures OneLine(LongFieldLine(name, content))
  {
    OneLineKept(content, 100);
    assert LongFieldLine(name, content) == "      • " + name + ": " + Cut(content, 100, 100);
  }

  /** A line renders without a newline. */
  lemma EmailLineOneLine(line: string)
    requires OneLine(line)
    ensures OneLine(EmailLine(line))
  {
    if IsFieldLine(line) {
      FieldLineOneLine(line);
    } else if StartsWith(line, "Body:") {
      BodyLineOneLine(line);
    } else if StartsWith(line, "Description:") {
      DescriptionLineOneLine(line);
    } else {
      OtherLineOneLine(line);
    }
  }

  lemma FieldLineOneLine(line: string)
    requires OneLine(line) && IsFieldLine(line)
    ensures OneLine(EmailLine(line))
  {
    var trimmed := Trim(line);
    OneLineKept(line, 100);
    var r := "      • " + trimmed;
    assert OneLine(r) by {
      forall i | 0 <= i < |r| ensures r[i] != '\n' {
        if i >= 8 {
          assert r[i] == trimmed[i - 8];
        }
      }
    }
    assert EmailLine(line) == r;
  }

  lemma BodyLineOneLine(line: string)
    requires OneLine(line) && !IsFieldLine(line) && StartsWith(line, "Body:")
    ensures OneLine(EmailLine(line))
  {
    assert OneLine(line[5..]);
    OneLineKept(line[5..], 100);
    LongFieldLineOneLine("Body", Trim(line[5..]));
  }

  lemma DescriptionLineOneLine(line: string)
    requires OneLine(line) && !IsFieldLine(line) && StartsWith(line, "Description:")
    ensures OneLine(EmailLine(line))
  {
    assert OneLine(line[12..]);
    OneLineKept(line[12..], 100);
    LongFieldLineOneLine("Description", Trim(line[12..]));
  }

  lemma OtherLineOneLine(line: string)
    requires OneLine(line) && !IsFieldLine(line) && !IsLongFieldLine(line)
    ensures OneLine(EmailLine(line))
  {
    var cut := Take(line, 100);
    OneLineKept(line, 100);
    var r := "      " + cut;
    assert OneLine(r) by {
      forall i | 0 <= i < |r| ensures r[i] != '\n' {
        if i >= 6 {
          assert r[i] == cut[i - 6];
        }
      }
    }
    assert EmailLine(line) == r;
  }

  /** The whole rendering. */
  function EmailOrCalendar(text: string): string {
    Header + "\n" + Unlines(RenderNonBlank(EmailLine, Split(text, '\n')))
  }

  /** The loop of lines 391-408. */
  method FormatEmailOrCalendar(text: string) returns (output: string)
    ensures output == EmailOrCalendar(text)
  {
    output := Header + "\n";
    var lines := Split(text, '\n');
    var i := 0;
    while i < |lines|
      invariant i <= |lines|
      invariant output == Header + "\n" + Unlines(RenderNonBlank(EmailLine, lines[..i]))
    {
      var line := lines[i];
      assert lines[..i + 1] == lines[..i] + [line];
      RenderNonBlankSnoc(EmailLine, lines[..i], line);
      if !IsBlank(line) {
        var piece := EmailLine(line) + "\n";
        ConcatAssoc(Header + "\n", Unlines(RenderNonBlank(EmailLine, lines[..i])), piece);
        output := output + piece;
      }
      i := i + 1;
    }
    assert lines[..i] == lines;
  }

  /** Below the header there is exactly one output line for each non-blank input line, in input
      order, and it is that line's rendering. */
  lemma EmailOneLinePerLine(text: string)
    ensures var kept := NonBlankLines(Split(text, '\n'));
      && Split(EmailOrCalendar(text), '\n') == [Header] + RenderNonBlank(EmailLine, Split(text, '\n')) + [[]]
      && |RenderNonBlank(EmailLine, Split(text, '\n'))| == |kept|
      && forall i :: 0 <= i < |kept| ==> RenderNonBlank(EmailLine, Split(text, '\n'))[i] == EmailLine(kept[i])
  {
    forall l | '\n' !in l ensures '\n' !in EmailLine(l) {
      OneLineIff(l);
      EmailLineOneLine(l);
      OneLineIff(EmailLine(l));
    }
    SplitRenderedLines(EmailLine, Header, text);
    RenderNonBlankIsFilterMap(EmailLine, Split(text, '\n'));
  }
}
