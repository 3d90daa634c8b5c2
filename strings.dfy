/** String primitives of the JavaScript runtime the formatter relies on: the white space that
    `String.prototype.trim` removes and the regular-expression class `\s` matches, `split` on one
    character, `join`, `includes`, `startsWith`, `indexOf`, `substring(0, n)` and the decimal
    rendering of a natural number. Strings are sequences of Unicode scalar values. */
module Strings {

  /** ECMAScript LineTerminator code points; `.` in a regular expression matches none of them. */
  predicate IsLineTerminator(c: char) {
    c == '\n' || c == '\r' || c == '\U{2028}' || c == '\U{2029}'
  }

  /** ECMAScript WhiteSpace or LineTerminator: what `trim()` removes and `\s` matches. */
  predicate IsSpace(c: char) {
    || IsLineTerminator(c)
    || c == '\t' || c == '\U{000B}' || c == '\U{000C}' || c == ' '
    || c == '\U{00A0}' || c == '\U{FEFF}' || c == '\U{1680}'
    || ('\U{2000}' <= c <= '\U{200A}')
    || c == '\U{202F}' || c == '\U{205F}' || c == '\U{3000}'
  }

  predicate IsDigit(c: char) {
    '0' <= c <= '9'
  }

  /** The number of white-space characters `s` starts with. */
  function LeadingSpace(s: string): (k: nat)
    ensures k <= |s|
    ensures forall i :: 0 <= i < k ==> IsSpace(s[i])
    ensures k < |s| ==> !IsSpace(s[k])
  {
    if s != [] && IsSpace(s[0]) then
      var k := LeadingSpace(s[1..]);
      assert forall i :: 1 <= i < k + 1 ==> s[i] == s[1..][i - 1];
      k + 1
    else 0
  }

  /** The length of `s` without its trailing white space. */
  function ContentEnd(s: string): (k: nat)
    ensures k <= |s|
    ensures forall i :: k <= i < |s| ==> IsSpace(s[i])
    ensures k > 0 ==> !IsSpace(s[k - 1])
  {
    if s != [] && IsSpace(s[|s| - 1]) then ContentEnd(s[..|s| - 1]) else |s|
  }

  /** `trimStart()`: drops the leading white space and nothing else. */
  function TrimStart(s: string): (r: string)
    ensures r == [] || !IsSpace(r[0])
  {
    s[LeadingSpace(s)..]
  }

  /** What `trimStart()` drops is white space, and what it keeps is a suffix of `s`. */
  lemma TrimStartDropsLeadingSpace(s: string)
    ensures |TrimStart(s)| <= |s| && TrimStart(s) == s[|s| - |TrimStart(s)|..]
    ensures forall i :: 0 <= i < |s| - |TrimStart(s)| ==> IsSpace(s[i])
  {
  }

  /** `trimEnd()`: drops the trailing white space and nothing else. */
  function TrimEnd(s: string): (r: string)
    ensures r == [] || !IsSpace(r[|r| - 1])
  {
    s[..ContentEnd(s)]
  }

  /** What `trimEnd()` drops is white space, and what it keeps is a prefix of `s`. */
  lemma TrimEndDropsTrailingSpace(s: string)
    ensures |TrimEnd(s)| <= |s| && TrimEnd(s) == s[..|TrimEnd(s)|]
    ensures forall i :: |TrimEnd(s)| <= i < |s| ==> IsSpace(s[i])
  {
  }

  /** `trim()`. */
  function Trim(s: string): string {
    TrimEnd(TrimStart(s))
  }

  /** A line the source skips with `if (!line.trim()) return;`. */
  predicate IsBlank(s: string) {
    Trim(s) == []
  }

  /** A string is blank exactly when every character of it is white space. */
  lemma BlankIffAllSpace(s: string)
    ensures IsBlank(s) <==> forall i :: 0 <= i < |s| ==> IsSpace(s[i])
  {
    var k := LeadingSpace(s);
    var t := s[k..];
    if k < |s| {
      assert t[0] == s[k];
      assert ContentEnd(t) > 0;
    }
  }

  /** `s.split(sep)` for a one-character separator: never empty, no part holds the separator. */
  function Split(s: string, sep: char): (parts: seq<string>)
    ensures |parts| >= 1
    ensures forall i :: 0 <= i < |parts| ==> sep !in parts[i]
  {
    if s == [] then [[]]
    else
      var rest := Split(s[1..], sep);
      if s[0] == sep then [[]] + rest else [[s[0]] + rest[0]] + rest[1..]
  }

  /** `parts.join(sep)`. */
  function Join(parts: seq<string>, sep: string): string {
    if |parts| == 0 then []
    else if |parts| == 1 then parts[0]
    else parts[0] + sep + Join(parts[1..], sep)
  }

  /** Joining the parts of a split gives back the string. */
  lemma {:induction false} JoinSplit(s: string, sep: char)
    ensures Join(Split(s, sep), [sep]) == s
  {
    if s != [] {
      JoinSplit(s[1..], sep);
      var rest := Split(s[1..], sep);
      if s[0] != sep {
        if |rest| == 1 {
          assert Split(s, sep) == [[s[0]] + rest[0]];
        } else {
          assert Split(s, sep)[1..] == rest[1..];
          assert Join(Split(s, sep), [sep]) == [s[0]] + rest[0] + [sep] + Join(rest[1..], [sep]);
        }
        assert s == [s[0]] + s[1..];
      } else {
        assert s == [sep] + s[1..];
      }
    }
  }

  /** Splitting `a + t`, where `a` holds no separator, glues `a` to the first part of `t`. */
  lemma {:induction false} SplitPrefix(a: string, t: string, sep: char)
    requires sep !in a
    ensures Split(a + t, sep) == [a + Split(t, sep)[0]] + Split(t, sep)[1..]
  {
    if a != [] {
      var rest := Split(a[1..] + t, sep);
      SplitPrefix(a[1..], t, sep);
      assert (a + t)[0] == a[0] && (a + t)[1..] == a[1..] + t;
      calc {
        Split(a + t, sep);
        [[a[0]] + rest[0]] + rest[1..];
        { assert [a[0]] + (a[1..] + Split(t, sep)[0]) == a + Split(t, sep)[0]; }
        [a + Split(t, sep)[0]] + Split(t, sep)[1..];
      }
    } else {
      var parts := Split(t, sep);
      assert a + t == t && a + parts[0] == parts[0];
      assert [parts[0]] + parts[1..] == parts;
    }
  }

  /** Splitting a join of separator-free parts gives back the parts. */
  lemma {:induction false} SplitJoin(parts: seq<string>, sep: char)
    requires |parts| >= 1
    requires forall i :: 0 <= i < |parts| ==> sep !in parts[i]
    ensures Split(Join(parts, [sep]), sep) == parts
  {
    if |parts| == 1 {
      SplitPrefix(parts[0], [], sep);
      assert parts[0] + [] == parts[0];
    } else {
      var tail := Join(parts[1..], [sep]);
      SplitJoin(parts[1..], sep);
      SplitPrefix(parts[0], [sep] + tail, sep);
      assert ([sep] + tail)[1..] == tail;
      assert Split([sep] + tail, sep) == [[]] + parts[1..];
      assert Join(parts, [sep]) == parts[0] + ([sep] + tail);
      assert parts[0] + [] == parts[0];
      assert parts[0] + ([sep] + tail) == parts[0] + [sep] + tail;
      assert parts == [parts[0]] + parts[1..];
    }
  }

  /** The concatenation of `line + "\n"` over the lines: what the loops `output += ... + '\n'` build. */
  function Unlines(lines: seq<string>): string {
    if lines == [] then [] else Unlines(lines[..|lines| - 1]) + lines[|lines| - 1] + "\n"
  }

  lemma {:induction false} JoinSnoc(parts: seq<string>, p: string, sep: string)
    requires |parts| >= 1
    ensures Join(parts + [p], sep) == Join(parts, sep) + sep + p
  {
    if |parts| > 1 {
      JoinSnoc(parts[1..], p, sep);
      assert (parts + [p])[1..] == parts[1..] + [p];
    }
  }

  lemma {:induction false} UnlinesIsJoin(lines: seq<string>)
    ensures Unlines(lines) == Join(lines + [[]], "\n")
  {
    if lines != [] {
      var init, last := lines[..|lines| - 1], lines[|lines| - 1];
      UnlinesIsJoin(init);
      assert lines == init + [last];
      assert lines + [[]] == (init + [last]) + [[]];
      JoinSnoc(init + [last], [], "\n");
      if init != [] {
        JoinSnoc(init, last, "\n");
        JoinSnoc(init, [], "\n");
      }
    }
  }

  /** Lines without a newline come back one for one when the output is split on newlines: the
      last, empty part is what follows the final newline. */
  lemma SplitUnlines(lines: seq<string>)
    requires forall i :: 0 <= i < |lines| ==> '\n' !in lines[i]
    ensures Split(Unlines(lines), '\n') == lines + [[]]
  {
    UnlinesIsJoin(lines);
    SplitJoin(lines + [[]], '\n');
  }

  lemma UnlinesOne(line: string)
    ensures Unlines([line]) == line + "\n"
  {
    assert [line][..0] == [];
  }

  lemma UnlinesPair(a: string, b: string)
    ensures Unlines([a, b]) == a + "\n" + b + "\n"
  {
    UnlinesOne(a);
    assert [a, b][..1] == [a];
  }

  /** Unlines distributes over concatenation. */
  lemma {:induction false} UnlinesAppend(a: seq<string>, b: seq<string>)
    ensures Unlines(a + b) == Unlines(a) + Unlines(b)
  {
    if b != [] {
      var init, last := b[..|b| - 1], b[|b| - 1];
      UnlinesAppend(a, init);
      assert a + b == (a + init) + [last];
      assert b == init + [last];
    } else {
      assert a + b == a;
    }
  }

  /** `lines.filter(line => line.trim())`: the lines that are not blank, in order. */
  function NonBlankLines(lines: seq<string>): (r: seq<string>)
    ensures |r| <= |lines|
    ensures forall i :: 0 <= i < |r| ==> !IsBlank(r[i]) && r[i] in lines
    ensures forall l :: l in lines && !IsBlank(l) ==> l in r
  {
    if lines == [] then []
    else
      var init, last := lines[..|lines| - 1], lines[|lines| - 1];
      assert lines == init + [last];
      var r := NonBlankLines(init);
      if IsBlank(last) then r else r + [last]
  }

  /** `b` is its front followed by its last element, and so `a + b` is `a` and that front
      followed by the same element. */
  lemma SplitLast<T>(a: seq<T>, b: seq<T>)
    requires b != []
    ensures b == b[..|b| - 1] + [b[|b| - 1]]
    ensures a + b == (a + b[..|b| - 1]) + [b[|b| - 1]]
  {
    assert b == b[..|b| - 1] + [b[|b| - 1]];
  }

  /** Filtering a line appended at the end. */
  lemma NonBlankLinesSnoc(lines: seq<string>, line: string)
    ensures NonBlankLines(lines + [line]) == NonBlankLines(lines) + if IsBlank(line) then [] else [line]
  {
    assert (lines + [line])[..|lines|] == lines;
  }

  /** The filter keeps the order and the repetitions of its input: filtering two parts one after
      the other is filtering the whole. */
  lemma {:induction false} NonBlankLinesAppend(a: seq<string>, b: seq<string>)
    ensures NonBlankLines(a + b) == NonBlankLines(a) + NonBlankLines(b)
  {
    if b == [] {
      assert a + b == a;
    } else {
      var init, last := b[..|b| - 1], b[|b| - 1];
      SplitLast(a, b);
      NonBlankLinesAppend(a, init);
      NonBlankLinesSnoc(a + init, last);
      NonBlankLinesSnoc(init, last);
    }
  }

  /** A single line is kept exactly when it is not blank. */
  lemma NonBlankLinesOne(line: string)
    ensures NonBlankLines([line]) == if IsBlank(line) then [] else [line]
  {
    assert [line][..0] == [];
  }

  /** The lines a `lines.forEach(line => { if (!line.trim()) return; output += render(line) + '\n'; })`
      loop emits, without their newlines. */
  function RenderNonBlank(render: string -> string, lines: seq<string>): seq<string> {
    if lines == [] then []
    else
      var init, last := lines[..|lines| - 1], lines[|lines| - 1];
      if IsBlank(last) then RenderNonBlank(render, init)
      else RenderNonBlank(render, init) + [render(last)]
  }

  /** Regrouping a concatenation, for loops that append to a string that starts with a header. */
  lemma ConcatAssoc(a: string, b: string, c: string)
    ensures (a + b) + c == a + (b + c)
  {
  }

  /** One more step of such a loop. */
  lemma RenderNonBlankSnoc(render: string -> string, lines: seq<string>, line: string)
    ensures IsBlank(line) ==> RenderNonBlank(render, lines + [line]) == RenderNonBlank(render, lines)
    ensures !IsBlank(line) ==> Unlines(RenderNonBlank(render, lines + [line]))
                               == Unlines(RenderNonBlank(render, lines)) + (render(line) + "\n")
  {
    assert (lines + [line])[..|lines|] == lines;
    var r := RenderNonBlank(render, lines);
    if !IsBlank(line) {
      assert (r + [render(line)])[..|r|] == r;
    }
  }

  /** Such a loop is filter-then-map: one rendered line per non-blank line, in input order. */
  lemma {:induction false} RenderNonBlankIsFilterMap(render: string -> string, lines: seq<string>)
    ensures |RenderNonBlank(render, lines)| == |NonBlankLines(lines)|
    ensures forall i :: 0 <= i < |NonBlankLines(lines)| ==>
      RenderNonBlank(render, lines)[i] == render(NonBlankLines(lines)[i])
  {
    if lines != [] {
      var init, last := lines[..|lines| - 1], lines[|lines| - 1];
      RenderNonBlankIsFilterMap(render, init);
      var r, k := RenderNonBlank(render, init), NonBlankLines(init);
      if IsBlank(last) {
        assert RenderNonBlank(render, lines) == r && NonBlankLines(lines) == k;
      } else {
        assert RenderNonBlank(render, lines) == r + [render(last)];
        assert NonBlankLines(lines) == k + [last];
      }
    }
  }

  /** A renderer that keeps lines free of newlines renders split lines into lines without one. */
  lemma {:induction false} RenderedLinesOneLine(render: string -> string, text: string)
    requires forall l :: '\n' !in l ==> '\n' !in render(l)
    ensures forall i :: 0 <= i < |RenderNonBlank(render, Split(text, '\n'))| ==>
      '\n' !in RenderNonBlank(render, Split(text, '\n'))[i]
  {
    var lines := Split(text, '\n');
    var out := RenderNonBlank(render, lines);
    var kept := NonBlankLines(lines);
    RenderNonBlankIsFilterMap(render, lines);
    forall i | 0 <= i < |out| ensures '\n' !in out[i] {
      var j :| 0 <= j < |lines| && lines[j] == kept[i];
      assert '\n' !in kept[i];
    }
  }

  /** A renderer that keeps lines free of newlines yields lines that split back one for one. */
  lemma {:induction false} SplitRenderedLines(render: string -> string, header: string, text: string)
    requires '\n' !in header
    requires forall l :: '\n' !in l ==> '\n' !in render(l)
    ensures Split(header + "\n" + Unlines(RenderNonBlank(render, Split(text, '\n'))), '\n')
         == [header] + RenderNonBlank(render, Split(text, '\n')) + [[]]
  {
    var out := RenderNonBlank(render, Split(text, '\n'));
    RenderedLinesOneLine(render, text);
    var all := [header] + out;
    assert forall i :: 0 <= i < |all| ==> '\n' !in all[i] by {
      forall i | 0 <= i < |all| ensures '\n' !in all[i] {
        if i > 0 {
          assert all[i] == out[i - 1];
        }
      }
    }
    UnlinesAppend([header], out);
    UnlinesOne(header);
    SplitUnlines(all);
  }

  /** `lines.map(f)`. */
  function MapLines(f: string -> string, lines: seq<string>): (r: seq<string>)
    ensures |r| == |lines| && forall i :: 0 <= i < |lines| ==> r[i] == f(lines[i])
  {
    seq(|lines|, i requires 0 <= i < |lines| => f(lines[i]))
  }

  /** One more line for a loop that appends `f(line) + "\n"` to a string. */
  lemma UnlinesMapSnoc(f: string -> string, lines: seq<string>, line: string)
    ensures Unlines(MapLines(f, lines + [line])) == Unlines(MapLines(f, lines)) + (f(line) + "\n")
  {
    var r := MapLines(f, lines + [line]);
    assert r[..|lines|] == MapLines(f, lines);
  }

  /** A string without a newline. */
  predicate OneLine(s: string) {
    forall i :: 0 <= i < |s| ==> s[i] != '\n'
  }

  lemma OneLineIff(s: string)
    ensures OneLine(s) <==> '\n' !in s
  {
  }

  /** Trimming, taking a prefix and cutting keep a string on one line. */
  lemma OneLineKept(s: string, n: nat)
    requires OneLine(s)
    ensures OneLine(Trim(s)) && OneLine(Take(s, n)) && OneLine(TrimStart(s)) && OneLine(TrimEnd(s))
    ensures n <= 100 ==> OneLine(Cut(s, n, 100))
  {
    var t := TrimStart(s);
    assert OneLine(t);
    assert OneLine(TrimEnd(t));
    if n <= 100 && |s| > 100 {
      assert Cut(s, n, 100) == s[..n] + "...";
    }
  }

  /** `s.startsWith(p)`. */
  predicate StartsWith(s: string, p: string) {
    |p| <= |s| && s[..|p|] == p
  }

  /** `s.includes(pat)`. */
  predicate Contains(s: string, pat: string) {
    StartsWith(s, pat) || (s != [] && Contains(s[1..], pat))
  }

  /** `pat` occurs in `s` starting at index `i`. */
  predicate OccursAt(s: string, pat: string, i: nat) {
    i + |pat| <= |s| && s[i..i + |pat|] == pat
  }

  /** An occurrence after the first character is an occurrence in the rest. */
  lemma OccursInTail(s: string, pat: string, i: nat)
    requires s != []
    ensures OccursAt(s, pat, i + 1) <==> OccursAt(s[1..], pat, i)
  {
    if i + 1 + |pat| <= |s| {
      assert s[1..][i..i + |pat|] == s[i + 1..i + 1 + |pat|];
    }
  }

  /** `includes` holds exactly when the pattern occurs at some position. */
  lemma {:induction false} ContainsIff(s: string, pat: string)
    ensures Contains(s, pat) <==> exists i: nat :: OccursAt(s, pat, i)
  {
    if exists i: nat :: OccursAt(s, pat, i) {
      var i: nat :| OccursAt(s, pat, i);
      if i == 0 {
        assert StartsWith(s, pat);
      } else {
        OccursInTail(s, pat, i - 1);
        ContainsIff(s[1..], pat);
      }
    }
    if Contains(s, pat) {
      if StartsWith(s, pat) {
        assert OccursAt(s, pat, 0);
      } else {
        ContainsIff(s[1..], pat);
        var i: nat :| OccursAt(s[1..], pat, i);
        OccursInTail(s, pat, i);
      }
    }
  }

  /** `s.indexOf(c)`, with `|s|` standing for "not found". */
  function IndexOf(s: string, c: char): (k: nat)
    ensures k <= |s| && forall j :: 0 <= j < k ==> s[j] != c
    ensures k < |s| ==> s[k] == c
  {
    if s == [] then 0
    else if s[0] == c then 0
    else
      IndexOf(s[1..], c) + 1
  }

  /** `s.substring(0, n)`: the longest prefix of at most `n` characters. */
  function Take(s: string, n: nat): (r: string)
    ensures r <= s
    ensures |r| == if |s| < n then |s| else n
  {
    if |s| <= n then s else s[..n]
  }

  /** The cut the formatter applies to long strings: above `limit` characters the string becomes
      its first `keep` characters followed by "...", otherwise it is left alone. */
  function Cut(s: string, keep: nat, limit: nat): (r: string)
    requires keep <= limit
    ensures |s| <= limit ==> r == s
    ensures |s| > limit ==> |r| == keep + 3 && r[..keep] == s[..keep] && r[keep..] == "..."
  {
    if |s| > limit then s[..keep] + "..." else s
  }

  /** Cutting is idempotent: a string already cut is left alone by the same cut. */
  lemma CutIdempotent(s: string, keep: nat, limit: nat)
    requires keep <= limit
    ensures Cut(Cut(s, keep, limit), keep, limit) == Cut(s, keep, limit)
  {
    var r := Cut(s, keep, limit);
    if |s| > limit && |r| > limit {
      assert r[..keep] + "..." == r;
    }
  }

  function DigitChar(d: nat): (c: char)
    requires d < 10
    ensures IsDigit(c)
  {
    ['0', '1', '2', '3', '4', '5', '6', '7', '8', '9'][d]
  }

  /** The decimal numeral of `n`, as a template literal writes a non-negative integer. */
  function NatToString(n: nat): (r: string)
    ensures |r| >= 1
    ensures forall i :: 0 <= i < |r| ==> IsDigit(r[i])
    ensures n < 10 <==> |r| == 1
  {
    if n < 10 then [DigitChar(n)] else NatToString(n / 10) + [DigitChar(n % 10)]
  }

  /** A prefix of the middle part stays a prefix once the same text is put in front. */
  lemma StartsWithInside(p: string, a: string, b: string, f: string)
    requires StartsWith(a, f)
    ensures StartsWith(p + a + b, p + f)
  {
    assert (p + a + b)[..|p + f|] == p + a[..|f|];
  }
}
