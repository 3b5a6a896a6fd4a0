/** The JavaScript string operations the session logic relies on: `String.prototype.trim`
    (with ECMAScript's own notion of white space), `split('\n')`, and the filter that keeps
    the summary lines that do not trim to nothing. */
module JsStrings {

  /** ECMAScript WhiteSpace and LineTerminator code points, the set `trim()` strips:
      TAB, VT, FF, SPACE, NO-BREAK SPACE, ZERO WIDTH NO-BREAK SPACE, every space separator
      (category Zs, including the ideographic space U+3000), LF, CR, LINE and PARAGRAPH SEPARATOR. */
  predicate IsJsWhitespace(c: char)
  {
    || c == '\t' || c == '\U{000B}' || c == '\U{000C}' || c == ' '
    || c == '\U{00A0}' || c == '\U{FEFF}' || c == '\U{1680}'
    || ('\U{2000}' <= c <= '\U{200A}')
    || c == '\U{202F}' || c == '\U{205F}' || c == '\U{3000}'
    || c == '\n' || c == '\r' || c == '\U{2028}' || c == '\U{2029}'
  }

  /** Every character of `s` is white space (the empty string included). */
  predicate IsBlank(s: string)
  {
    forall i | 0 <= i < |s| :: IsJsWhitespace(s[i])
  }

  /** The length of the run of white space `s` starts with. */
  function LeadingBlanks(s: string): (n: nat)
    ensures n <= |s|
    ensures forall i | 0 <= i < n :: IsJsWhitespace(s[i])
    ensures n < |s| ==> !IsJsWhitespace(s[n])
  {
    if s == [] || !IsJsWhitespace(s[0]) then 0
    else
      var n := LeadingBlanks(s[1..]);
      assert forall i | 1 <= i < n + 1 :: s[i] == s[1..][i - 1];
      n + 1
  }

  /** The length of the run of white space `s` ends with. */
  function TrailingBlanks(s: string): (n: nat)
    ensures n <= |s|
    ensures forall i | |s| - n <= i < |s| :: IsJsWhitespace(s[i])
    ensures n < |s| ==> !IsJsWhitespace(s[|s| - 1 - n])
  {
    if s == [] || !IsJsWhitespace(s[|s| - 1]) then 0
    else TrailingBlanks(s[..|s| - 1]) + 1
  }

  /** JavaScript `s.trim()`: what lies between the leading and the trailing run of white space;
      it neither starts nor ends with white space, and it is empty exactly when `s` is blank. */
  function Trim(s: string): (r: string)
    ensures |r| <= |s|
    ensures r != [] ==> !IsJsWhitespace(r[0]) && !IsJsWhitespace(r[|r| - 1])
    ensures r == [] <==> IsBlank(s)
  {
    var lead := LeadingBlanks(s);
    if lead == |s| then [] else s[lead..|s| - TrailingBlanks(s)]
  }

  /** What `trim()` keeps is the contiguous middle of `s`: it starts after the leading white
      space and is followed by white space only. */
  lemma TrimMiddle(s: string)
    ensures var lead := LeadingBlanks(s);
      && lead + |Trim(s)| <= |s|
      && Trim(s) == s[lead..lead + |Trim(s)|]
      && IsBlank(s[..lead])
      && IsBlank(s[lead + |Trim(s)|..])
  {
    var lead := LeadingBlanks(s);
    var end := KeptEnd(s);
    LeadIsBlank(s);
    TailIsBlank(s);
    assert Trim(s) == s[lead..end];
  }

  /** Where what `trim()` keeps ends in `s`. */
  function KeptEnd(s: string): (end: nat)
    ensures LeadingBlanks(s) <= end <= |s|
    ensures Trim(s) == s[LeadingBlanks(s)..end]
  {
    if LeadingBlanks(s) == |s| then |s| else |s| - TrailingBlanks(s)
  }

  /** The leading run is blank. */
  lemma LeadIsBlank(s: string)
    ensures IsBlank(s[..LeadingBlanks(s)])
  {
    var lead := LeadingBlanks(s);
    forall i | 0 <= i < lead ensures IsJsWhitespace(s[..lead][i]) {
      assert s[..lead][i] == s[i];
    }
  }

  /** Everything after what `trim()` keeps is blank. */
  lemma TailIsBlank(s: string)
    ensures IsBlank(s[KeptEnd(s)..])
  {
    var end := KeptEnd(s);
    forall i | 0 <= i < |s| - end ensures IsJsWhitespace(s[end..][i]) {
      assert s[end..][i] == s[end + i];
    }
  }

  /** Trimming twice is trimming once. */
  lemma TrimIdempotent(s: string)
    ensures Trim(Trim(s)) == Trim(s)
  {
    var r := Trim(s);
    if r != [] {
      assert LeadingBlanks(r) == 0 && TrailingBlanks(r) == 0;
      assert r[0..|r|] == r;
    }
  }

  /** JavaScript `s.split('\n')`: the pieces between line feeds, in order; there is always
      at least one piece, and no piece holds a line feed. */
  function Split(s: string): (pieces: seq<string>)
    ensures |pieces| >= 1
    ensures forall i | 0 <= i < |pieces| :: '\n' !in pieces[i]
  {
    if s == [] then
      [""]
    else
      var rest := Split(s[1..]);
      if s[0] == '\n' then [""] + rest else [[s[0]] + rest[0]] + rest[1..]
  }

  /** The inverse of `Split`: the pieces glued back together with line feeds. */
  function Join(pieces: seq<string>): string
    requires |pieces| >= 1
  {
    if |pieces| == 1 then pieces[0] else pieces[0] + "\n" + Join(pieces[1..])
  }

  /** Splitting loses nothing: joining the pieces gives back the text. */
  lemma {:induction false} JoinSplit(s: string)
    ensures Join(Split(s)) == s
  {
    if s != [] {
      var rest := Split(s[1..]);
      JoinSplit(s[1..]);
      if s[0] == '\n' {
        assert Join(Split(s)) == "" + "\n" + Join(rest);
      } else if |rest| == 1 {
        assert Join(Split(s)) == [s[0]] + rest[0];
      } else {
        assert Join(rest) == rest[0] + "\n" + Join(rest[1..]);
        assert Split(s)[1..] == rest[1..];
        assert Join(Split(s)) == ([s[0]] + rest[0]) + "\n" + Join(rest[1..]);
      }
    }
  }

  /** A text without line feeds splits into itself alone. */
  lemma {:induction false} SplitSingleLine(a: string)
    requires '\n' !in a
    ensures Split(a) == [a]
  {
    if a != [] {
      SplitSingleLine(a[1..]);
      assert [a[0]] + a[1..] == a;
    }
  }

  /** A line feed after a line-feed-free head splits off exactly that head. */
  lemma {:induction false} SplitAtLineFeed(a: string, b: string)
    requires '\n' !in a
    ensures Split(a + "\n" + b) == [a] + Split(b)
  {
    if a == [] {
      assert a + "\n" + b == "\n" + b;
      assert ("\n" + b)[1..] == b;
    } else {
      assert (a + "\n" + b)[1..] == a[1..] + "\n" + b;
      SplitAtLineFeed(a[1..], b);
      assert [a[0]] + a[1..] == a;
    }
  }

  /** Splitting is the inverse of joining for pieces that hold no line feed. */
  lemma {:induction false} SplitJoin(pieces: seq<string>)
    requires |pieces| >= 1
    requires forall i | 0 <= i < |pieces| :: '\n' !in pieces[i]
    ensures Split(Join(pieces)) == pieces
  {
    if |pieces| == 1 {
      SplitSingleLine(pieces[0]);
    } else {
      SplitJoin(pieces[1..]);
      SplitAtLineFeed(pieces[0], Join(pieces[1..]));
      assert [pieces[0]] + pieces[1..] == pieces;
    }
  }

  /** A summary line is shown when `line.trim()` is truthy, which by the contract of `Trim` is
      exactly when the line holds a character that is not white space. */
  predicate IsShown(line: string)
  {
    !IsBlank(line)
  }

  /** The lines that do not trim to nothing, unmodified and in their original order. */
  function KeepNonBlank(lines: seq<string>): (kept: seq<string>)
    ensures |kept| <= |lines|
    ensures forall i | 0 <= i < |kept| :: IsShown(kept[i])
  {
    if lines == [] then []
    else if IsShown(lines[0]) then [lines[0]] + KeepNonBlank(lines[1..])
    else KeepNonBlank(lines[1..])
  }

  /** A line is kept exactly when it is one of the input lines and it is shown. */
  lemma {:induction false} KeepNonBlankMembers(lines: seq<string>, line: string)
    ensures line in KeepNonBlank(lines) <==> line in lines && IsShown(line)
  {
    if lines != [] {
      KeepNonBlankMembers(lines[1..], line);
      assert lines == [lines[0]] + lines[1..];
    }
  }

  /** The filter decides about a single line on its own. */
  lemma KeepNonBlankOne(line: string)
    ensures KeepNonBlank([line]) == if IsShown(line) then [line] else []
  {
    assert [line][1..] == [];
  }

  /** The filter works line by line: filtering a concatenation concatenates the filtered parts,
      so relative order is kept. */
  lemma {:induction false} KeepNonBlankAppend(a: seq<string>, b: seq<string>)
    ensures KeepNonBlank(a + b) == KeepNonBlank(a) + KeepNonBlank(b)
  {
    if a != [] {
      assert (a + b)[0] == a[0];
      assert (a + b)[1..] == a[1..] + b;
      KeepNonBlankAppend(a[1..], b);
      if IsShown(a[0]) {
        assert KeepNonBlank(a + b) == [a[0]] + KeepNonBlank(a[1..] + b);
        assert KeepNonBlank(a) == [a[0]] + KeepNonBlank(a[1..]);
      } else {
        assert KeepNonBlank(a + b) == KeepNonBlank(a[1..] + b);
        assert KeepNonBlank(a) == KeepNonBlank(a[1..]);
      }
    } else {
      assert a + b == b;
    }
  }

  /** A list with no blank line passes the filter unchanged. */
  lemma {:induction false} KeepNonBlankKeepsAll(lines: seq<string>)
    requires forall i | 0 <= i < |lines| :: IsShown(lines[i])
    ensures KeepNonBlank(lines) == lines
  {
    if lines != [] {
      assert forall i | 0 <= i < |lines[1..]| :: lines[1..][i] == lines[i + 1];
      KeepNonBlankKeepsAll(lines[1..]);
      assert IsShown(lines[0]);
      assert KeepNonBlank(lines) == [lines[0]] + KeepNonBlank(lines[1..]);
      assert [lines[0]] + lines[1..] == lines;
    }
  }

  /** The lines shown for a summary: `text.split('\n')` without the lines that trim to nothing. */
  function VisibleLines(text: string): (lines: seq<string>)
    ensures forall line :: line in lines <==> line in Split(text) && IsShown(line)
    ensures forall i | 0 <= i < |lines| :: '\n' !in lines[i]
  {
    var kept := KeepNonBlank(Split(text));
    forall line ensures line in kept <==> line in Split(text) && IsShown(line) {
      KeepNonBlankMembers(Split(text), line);
    }
    kept
  }

  /** Two lines around a blank one (empty, or only spaces such as U+3000): the blank line is
      dropped, the other two are shown verbatim and in order. */
  lemma VisibleLinesDropsBlankLine(first: string, middle: string, second: string)
    requires '\n' !in first && '\n' !in middle && '\n' !in second
    requires IsShown(first) && !IsShown(middle) && IsShown(second)
    ensures VisibleLines(first + "\n" + middle + "\n" + second) == [first, second]
  {
    SplitThreeLines(first, middle, second);
    KeepNonBlankSkipsBlank(first, middle, second);
  }

  /** Three line-feed-free lines joined by line feeds split back into those three pieces. */
  lemma SplitThreeLines(first: string, middle: string, second: string)
    requires '\n' !in first && '\n' !in middle && '\n' !in second
    ensures Split(first + "\n" + middle + "\n" + second) == [first, middle, second]
  {
    var pieces := [first, middle, second];
    assert pieces[1..] == [middle, second] && pieces[1..][1..] == [second];
    assert Join(pieces[1..][1..]) == second;
    assert Join(pieces[1..]) == middle + "\n" + second;
    assert Join(pieces) == first + "\n" + middle + "\n" + second;
    SplitJoin(pieces);
  }

  /** The blank middle line is the only one the filter drops. */
  lemma KeepNonBlankSkipsBlank(first: string, middle: string, second: string)
    requires IsShown(first) && !IsShown(middle) && IsShown(second)
    ensures KeepNonBlank([first, middle, second]) == [first, second]
  {
    KeepNonBlankOne(first);
    KeepNonBlankOne(middle);
    KeepNonBlankOne(second);
    KeepNonBlankAppend([first], [middle]);
    KeepNonBlankAppend([first] + [middle], [second]);
    calc {
      KeepNonBlank([first, middle, second]);
      { assert [first, middle, second] == [first] + [middle] + [second]; }
      KeepNonBlank([first] + [middle] + [second]);
      KeepNonBlank([first]) + KeepNonBlank([middle]) + KeepNonBlank([second]);
      [first] + [] + [second];
      { assert [first] + [] + [second] == [first, second]; }
      [first, second];
    }
  }
}
