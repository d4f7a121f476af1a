/** The Python string operations that the script relies on: `str.replace` of one
    character, `str.title` (for ASCII letters) and `str.splitlines`. */
module Strings {

  /** `s.replace(target, replacement)` for one-character strings. */
  function Replace(s: string, target: char, replacement: char): (r: string)
    ensures |r| == |s|
    ensures forall i :: 0 <= i < |s| ==> r[i] == if s[i] == target then replacement else s[i]
  {
    if s == [] then []
    else [if s[0] == target then replacement else s[0]] + Replace(s[1..], target, replacement)
  }

  predicate IsUpper(c: char) { 'A' <= c <= 'Z' }

  predicate IsLower(c: char) { 'a' <= c <= 'z' }

  /** A character that has an upper and a lower case (ASCII letters only). */
  predicate IsCased(c: char) { IsUpper(c) || IsLower(c) }

  function ToUpper(c: char): char
  {
    if IsLower(c) then (c as int - 'a' as int + 'A' as int) as char else c
  }

  function ToLower(c: char): char
  {
    if IsUpper(c) then (c as int - 'A' as int + 'a' as int) as char else c
  }

  /** `str.title`: a character after a cased character is lowered, any other is raised;
      `afterCased` says whether the character before `s` was cased. */
  function TitleFrom(s: string, afterCased: bool): (t: string)
    ensures |t| == |s|
  {
    if s == [] then []
    else [if afterCased then ToLower(s[0]) else ToUpper(s[0])] + TitleFrom(s[1..], IsCased(s[0]))
  }

  function Title(s: string): (t: string)
    ensures |t| == |s|
  {
    TitleFrom(s, false)
  }

  /** Each character of the title-cased string, stated on its own: the first character
      and every character after an uncased one is raised, every other one lowered. */
  lemma {:induction false} TitleFromAt(s: string, afterCased: bool, i: nat)
    requires i < |s|
    ensures TitleFrom(s, afterCased)[i] ==
      if (if i == 0 then afterCased else IsCased(s[i - 1])) then ToLower(s[i]) else ToUpper(s[i])
  {
    if i > 0 {
      TitleFromAt(s[1..], IsCased(s[0]), i - 1);
    } else if |s| > 1 {
      TitleFromAt(s[1..], IsCased(s[0]), 0);
    }
  }

  lemma TitleAt(s: string, i: nat)
    requires i < |s|
    ensures Title(s)[i] == if i > 0 && IsCased(s[i - 1]) then ToLower(s[i]) else ToUpper(s[i])
  {
    TitleFromAt(s, false, i);
  }

  /** Title-casing a title-cased string changes nothing. */
  lemma TitleIdempotent(s: string)
    ensures Title(Title(s)) == Title(s)
  {
    var t := Title(s);
    forall i | 0 <= i < |s|
      ensures Title(t)[i] == t[i]
    {
      TitleAt(s, i);
      TitleAt(t, i);
      if i > 0 {
        TitleAt(s, i - 1);
      }
    }
  }

  /** Title-casing changes only the case of letters: every other character stays where it is. */
  lemma TitleKeepsUncased(s: string, i: nat)
    requires i < |s| && !IsCased(s[i])
    ensures Title(s)[i] == s[i]
  {
    TitleAt(s, i);
  }

  /** The characters at which `str.splitlines` breaks a line. */
  predicate IsLineBreak(c: char)
  {
    var k := c as int;
    k == 0x0A || k == 0x0B || k == 0x0C || k == 0x0D || k == 0x1C || k == 0x1D || k == 0x1E
    || k == 0x85 || k == 0x2028 || k == 0x2029
  }

  predicate HasNoLineBreak(s: string)
  {
    forall j :: 0 <= j < |s| ==> !IsLineBreak(s[j])
  }

  /** Index of the first line break in `s`, or `|s|`. */
  function LineEnd(s: string): (i: nat)
    ensures i <= |s|
    ensures i < |s| ==> IsLineBreak(s[i])
    ensures HasNoLineBreak(s[..i])
  {
    if s == [] then 0
    else if IsLineBreak(s[0]) then 0
    else
      var i := 1 + LineEnd(s[1..]);
      assert s[..i] == [s[0]] + s[1..][..i - 1];
      i
  }

  /** `s.splitlines()`: the lines of `s` without their line breaks; "\r\n" is one break, and a
      break at the very end does not start another line. */
  function SplitLines(s: string): (lines: seq<string>)
    ensures forall k :: 0 <= k < |lines| ==> HasNoLineBreak(lines[k])
    ensures s == [] <==> lines == []
    decreases |s|
  {
    if s == [] then []
    else
      var i := LineEnd(s);
      if i == |s| then
        assert s[..i] == s;
        [s]
      else
        var next := if s[i] == '\r' && i + 1 < |s| && s[i + 1] == '\n' then i + 2 else i + 1;
        [s[..i]] + SplitLines(s[next..])
  }

  /** The text of a file written one record at a time, each followed by "\n". */
  function Lines(records: seq<string>): string
  {
    if records == [] then "" else records[0] + "\n" + Lines(records[1..])
  }

  /** Writing one more record adds one line after the text that was there. */
  lemma {:induction false} LinesAppend(records: seq<string>, r: string)
    ensures Lines(records + [r]) == Lines(records) + r + "\n"
  {
    if records != [] {
      assert (records + [r])[1..] == records[1..] + [r];
      LinesAppend(records[1..], r);
    }
  }

  /** Splitting the text back gives exactly the records written, in order, provided no record
      holds a line break of its own. */
  lemma {:induction false} SplitLinesOfLines(records: seq<string>)
    requires forall k :: 0 <= k < |records| ==> HasNoLineBreak(records[k])
    ensures SplitLines(Lines(records)) == records
  {
    if records != [] {
      var r := records[0];
      var s := Lines(records);
      var rest := Lines(records[1..]);
      assert s == r + "\n" + rest;
      assert LineEnd(s) == |r| by {
        assert s[|r|] == '\n';
        assert forall j :: 0 <= j < |r| ==> s[j] == r[j];
      }
      assert s[..|r|] == r;
      assert s[|r| + 1..] == rest;
      SplitLinesOfLines(records[1..]);
    }
  }
}
