/** The text logic of the live-coding editor: the text buffer it edits, the
    cursor state, deleting and inserting at character positions, word
    boundaries, line starts, and what typing a bracket or pressing Backspace
    or Delete does. Layout, painting and the undo history are not part of
    this model. Positions are character indices into the text. */
module LivecodeTextEdit {
  import opened Wrappers

  // ---------------------------------------------------------------------
  // Cursors and the editor state
  // ---------------------------------------------------------------------

  /** A cursor as a character index. */
  datatype CCursor = CCursor(index: nat, preferNextRow: bool)

  datatype CCursorRange = CCursorRange(primary: CCursor, secondary: CCursor)

  /** A cursor placed in the laid-out text: its character position and its
      paragraph and offset there. */
  datatype Cursor = Cursor(ccursor: CCursor, paragraph: nat, offset: nat)

  datatype CursorRange = CursorRange(primary: Cursor, secondary: Cursor)

  function AsCCursorRange(r: CursorRange): CCursorRange
  {
    CCursorRange(r.primary.ccursor, r.secondary.ccursor)
  }

  /** The persisted state of the editor: the selection, kept either as
      character cursors or as laid-out cursors, and the selection toggle. */
  class LivecodeTextEditState {
    var cursorRange: Option<CursorRange>
    var ccursorRange: Option<CCursorRange>
    var selectionToggle: bool

    constructor ()
      ensures cursorRange.None? && ccursorRange.None? && !selectionToggle
    {
      cursorRange, ccursorRange, selectionToggle := None, None, false;
    }

    /** The selection as character cursors: the character cursors when
        they are set, else the laid-out ones' positions. */
    function CurrentCCursorRange(): Option<CCursorRange>
      reads this
    {
      if ccursorRange.Some? then ccursorRange
      else if cursorRange.Some? then Some(AsCCursorRange(cursorRange.value))
      else None
    }

    /** At most one of the two forms is kept. */
    predicate OneForm()
      reads this
    {
      cursorRange.None? || ccursorRange.None?
    }

    method SetCCursorRange(r: Option<CCursorRange>)
      modifies this`cursorRange, this`ccursorRange
      ensures cursorRange.None? && ccursorRange == r
      ensures OneForm() && CurrentCCursorRange() == r
    {
      cursorRange := None;
      ccursorRange := r;
    }

    method SetCursorRange(r: Option<CursorRange>)
      modifies this`cursorRange, this`ccursorRange
      ensures ccursorRange.None? && cursorRange == r
      ensures OneForm() && CurrentCCursorRange() == if r.Some? then Some(AsCCursorRange(r.value)) else None
    {
      cursorRange := r;
      ccursorRange := None;
    }
  }

  // ---------------------------------------------------------------------
  // The text buffer
  // ---------------------------------------------------------------------

  /** A position clipped to the text: positions past the end mean the end. */
  function Clip(i: nat, s: string): (r: nat)
    ensures r <= |s| && (i <= |s| ==> r == i)
  {
    if i <= |s| then i else |s|
  }

  /** `t` inserted at position `at`. */
  function Inserted(s: string, t: string, at: nat): string
  {
    s[..Clip(at, s)] + t + s[Clip(at, s)..]
  }

  /** The characters from `lo` up to `hi` removed. */
  function Deleted(s: string, lo: nat, hi: nat): string
    requires lo <= hi
  {
    s[..Clip(lo, s)] + s[Clip(hi, s)..]
  }

  /** The characters from `lo` up to `hi`. */
  function CharRange(s: string, lo: nat, hi: nat): string
    requires lo <= hi
  {
    s[Clip(lo, s)..Clip(hi, s)]
  }

  /** Deleting what was just inserted gives the text back. */
  lemma DeleteInserted(s: string, t: string, at: nat)
    requires at <= |s|
    ensures Deleted(Inserted(s, t, at), at, at + |t|) == s
  {
    var u := Inserted(s, t, at);
    assert u[..at] == s[..at];
    assert u[at + |t|..] == s[at..];
  }

  /** A range is what lies between the text before it and the text after
      it; deleting it leaves those two. */
  lemma RangeSplits(s: string, lo: nat, hi: nat)
    requires lo <= hi <= |s|
    ensures s == s[..lo] + CharRange(s, lo, hi) + s[hi..]
    ensures Deleted(s, lo, hi) == s[..lo] + s[hi..]
    ensures |Deleted(s, lo, hi)| == |s| - (hi - lo)
  {
    assert s == s[..lo] + s[lo..hi] + s[hi..];
  }

  /** The edited text: a string edited in place. */
  class TextBuffer {
    var chars: string

    constructor (s: string)
      ensures chars == s
    {
      chars := s;
    }

    /** Inserts `t` at character position `at` and says how many
        characters were inserted. */
    method InsertText(t: string, at: nat) returns (n: nat)
      modifies this
      ensures chars == Inserted(old(chars), t, at) && n == |t|
      ensures |chars| == |old(chars)| + n
    {
      var p := Clip(at, chars);
      chars := chars[..p] + t + chars[p..];
      n := |t|;
    }

    /** Removes the characters from `lo` up to `hi`. */
    method DeleteCharRange(lo: nat, hi: nat)
      requires lo <= hi
      modifies this
      ensures chars == Deleted(old(chars), lo, hi)
    {
      chars := chars[..Clip(lo, chars)] + chars[Clip(hi, chars)..];
    }
  }

  // ---------------------------------------------------------------------
  // Inserting and deleting at cursors
  // ---------------------------------------------------------------------

  /** Inserts at the cursor and moves it past the insertion. */
  method InsertTextAt(c: CCursor, text: TextBuffer, t: string) returns (c': CCursor)
    modifies text
    ensures text.chars == Inserted(old(text.chars), t, c.index)
    ensures c' == c.(index := c.index + |t|)
  {
    var n := text.InsertText(t, c.index);
    c' := c.(index := c.index + n);
  }

  /** Deletes the range between two positions; the cursor goes to its
      start. */
  method DeleteSelectedRange(text: TextBuffer, min: nat, max: nat) returns (c: CCursor)
    requires min <= max
    modifies text
    ensures text.chars == Deleted(old(text.chars), min, max)
    ensures c == CCursor(min, true)
  {
    text.DeleteCharRange(min, max);
    c := CCursor(min, true);
  }

  /** Deletes the character before the cursor; at the start nothing
      happens. */
  method DeletePreviousChar(text: TextBuffer, c: CCursor) returns (c': CCursor)
    modifies text
    ensures c.index > 0 ==> text.chars == Deleted(old(text.chars), c.index - 1, c.index) && c' == CCursor(c.index - 1, true)
    ensures c.index == 0 ==> text.chars == old(text.chars) && c' == c
  {
    c' := c;
    if c.index > 0 {
      c' := DeleteSelectedRange(text, c.index - 1, c.index);
    } else {
      assert Deleted(text.chars, 0, 0) == text.chars;
    }
  }

  /** Deletes the character after the cursor, if there is one. */
  method DeleteNextChar(text: TextBuffer, c: CCursor) returns (c': CCursor)
    modifies text
    ensures text.chars == Deleted(old(text.chars), c.index, c.index + 1)
    ensures c' == CCursor(c.index, true)
  {
    c' := DeleteSelectedRange(text, c.index, c.index + 1);
  }

  /** Deleting one character before a position inside the text removes
      exactly that character. */
  lemma DeletePreviousRemovesOne(s: string, i: nat)
    requires 0 < i <= |s|
    ensures Deleted(s, i - 1, i) == s[..i - 1] + s[i..]
    ensures |Deleted(s, i - 1, i)| == |s| - 1
  {
  }

  // ---------------------------------------------------------------------
  // Words and lines
  // ---------------------------------------------------------------------

  predicate IsAsciiAlphanumeric(c: char)
  {
    ('0' <= c <= '9') || ('a' <= c <= 'z') || ('A' <= c <= 'Z')
  }

  /** A character that belongs to a word: ASCII letters, digits and `_`. */
  predicate IsWordChar(c: char)
  {
    IsAsciiAlphanumeric(c) || c == '_'
  }

  /** How many characters from position `k` on share the word class `w`. */
  function WordRun(s: string, k: nat, w: bool): (n: nat)
    requires k <= |s|
    ensures k + n <= |s|
    ensures forall j :: k <= j < k + n ==> IsWordChar(s[j]) == w
    ensures k + n == |s| || IsWordChar(s[k + n]) != w
    decreases |s| - k
  {
    if k == |s| || IsWordChar(s[k]) != w then 0 else 1 + WordRun(s, k + 1, w)
  }

  /** The next word boundary from `index`: past the first character, past
      the second, then past every further character of the second one's
      word class. */
  function NextWordBoundary(s: string, index: nat): nat
  {
    if index >= |s| then index
    else if index + 1 == |s| then index + 1
    else index + 2 + WordRun(s, index + 2, IsWordChar(s[index + 1]))
  }

  /** The boundary scan, character by character. */
  method NextWordBoundaryIndex(s: string, index: nat) returns (r: nat)
    ensures r == NextWordBoundary(s, index)
  {
    r := index;
    if index < |s| {
      r := r + 1;
      if index + 1 < |s| {
        var second := s[index + 1];
        r := r + 1;
        while r < |s|
          invariant index + 2 <= r <= |s|
          invariant WordRun(s, index + 2, IsWordChar(second)) == (r - (index + 2)) + WordRun(s, r, IsWordChar(second))
          decreases |s| - r
        {
          if IsWordChar(s[r]) != IsWordChar(second) {
            break;
          }
          r := r + 1;
        }
      }
    }
  }

  /** The boundary never lies before the start, advances past a character
      that exists, stays in the text, and the characters it skips after
      the first two are of one word class, up to a change of class or the
      end. */
  lemma NextWordBoundaryBounds(s: string, index: nat)
    ensures NextWordBoundary(s, index) >= index
    ensures index < |s| ==> index < NextWordBoundary(s, index) <= |s|
    ensures index + 1 < |s| ==>
      var r := NextWordBoundary(s, index);
      (forall j :: index + 2 <= j < r ==> IsWordChar(s[j]) == IsWordChar(s[index + 1])) &&
      (r == |s| || IsWordChar(s[r]) != IsWordChar(s[index + 1]))
  {
  }

  function Reverse(s: string): (r: string)
    ensures |r| == |s| && forall i :: 0 <= i < |s| ==> r[i] == s[|s| - 1 - i]
  {
    seq(|s|, i requires 0 <= i < |s| => s[|s| - 1 - i])
  }

  /** The previous word boundary: the next one in the reversed text. */
  function PreviousWordBoundary(s: string, index: nat): nat
    requires index <= |s|
  {
    var b := NextWordBoundary(Reverse(s), |s| - index);
    if b <= |s| then |s| - b else 0
  }

  /** The previous boundary lies at or before the cursor, and before it
      when there is a character before it. */
  lemma PreviousWordBoundaryBounds(s: string, index: nat)
    requires index <= |s|
    ensures PreviousWordBoundary(s, index) <= index
    ensures index > 0 ==> PreviousWordBoundary(s, index) < index
  {
    NextWordBoundaryBounds(Reverse(s), |s| - index);
  }

  /** Deletes back to the previous word boundary. */
  method DeletePreviousWord(text: TextBuffer, c: CCursor) returns (c': CCursor)
    requires c.index <= |text.chars|
    modifies text
    ensures var b := PreviousWordBoundary(old(text.chars), c.index);
      text.chars == Deleted(old(text.chars), b, c.index) && c' == CCursor(b, true)
  {
    PreviousWordBoundaryBounds(text.chars, c.index);
    var b := PreviousWordBoundary(text.chars, c.index);
    c' := DeleteSelectedRange(text, b, c.index);
  }

  /** Deletes up to the next word boundary. */
  method DeleteNextWord(text: TextBuffer, c: CCursor) returns (c': CCursor)
    modifies text
    ensures text.chars == Deleted(old(text.chars), c.index, NextWordBoundary(old(text.chars), c.index))
    ensures c' == CCursor(c.index, true)
  {
    NextWordBoundaryBounds(text.chars, c.index);
    var b := NextWordBoundaryIndex(text.chars, c.index);
    c' := DeleteSelectedRange(text, c.index, b);
  }

  /** The start of the line the cursor is on: just after the nearest `\n`
      before it, or the start of the text. */
  function FindLineStart(s: string, index: nat): (r: nat)
    requires index <= |s|
    ensures r <= index
    ensures r == 0 || s[r - 1] == '\n'
    ensures forall j :: r <= j < index ==> s[j] != '\n'
  {
    if index == 0 then 0
    else if s[index - 1] == '\n' then index
    else FindLineStart(s, index - 1)
  }

  /** A line start is its own line start, and so is every position right
      after a newline. */
  lemma {:induction false} LineStartIdempotent(s: string, index: nat)
    requires index <= |s|
    ensures FindLineStart(s, FindLineStart(s, index)) == FindLineStart(s, index)
    decreases index
  {
    if index > 0 && s[index - 1] != '\n' {
      LineStartIdempotent(s, index - 1);
    }
  }

  /** The end of the paragraph the cursor is on: the nearest `\n` at or
      after it, or the end of the text. */
  function ParagraphEnd(s: string, index: nat): (r: nat)
    requires index <= |s|
    ensures index <= r <= |s|
    ensures r == |s| || s[r] == '\n'
    ensures forall j :: index <= j < r ==> s[j] != '\n'
    decreases |s| - index
  {
    if index == |s| || s[index] == '\n' then index
    else ParagraphEnd(s, index + 1)
  }

  /** The start and the end found from a cursor bound the same paragraph:
      the end has the cursor's line start. */
  lemma {:induction false} SameParagraph(s: string, index: nat)
    requires index <= |s|
    ensures FindLineStart(s, ParagraphEnd(s, index)) == FindLineStart(s, index)
    decreases |s| - index
  {
    if index < |s| && s[index] != '\n' {
      SameParagraph(s, index + 1);
    }
  }

  /** Deletes from the start of the paragraph of `min` to `max`; with a
      single cursor already at a paragraph start, the character before it
      (the newline) goes instead. */
  method DeleteParagraphBeforeCursor(text: TextBuffer, min: nat, max: nat) returns (c': CCursor)
    requires min <= max <= |text.chars|
    modifies text
    ensures var start := FindLineStart(old(text.chars), min);
      start != max ==> text.chars == Deleted(old(text.chars), start, max) && c' == CCursor(start, true)
    ensures var start := FindLineStart(old(text.chars), min);
      start == max && start > 0 ==> text.chars == Deleted(old(text.chars), start - 1, start) && c' == CCursor(start - 1, true)
    ensures FindLineStart(old(text.chars), min) == max == 0 ==> text.chars == old(text.chars) && c' == CCursor(0, true)
  {
    var start := FindLineStart(text.chars, min);
    if start == max {
      c' := DeletePreviousChar(text, CCursor(start, true));
    } else {
      c' := DeleteSelectedRange(text, start, max);
    }
  }

  /** Deletes from `min` to the end of the paragraph of `max`; with a
      single cursor already at a paragraph end, the character after it
      (the newline) goes instead. */
  method DeleteParagraphAfterCursor(text: TextBuffer, min: nat, max: nat) returns (c': CCursor)
    requires min <= max <= |text.chars|
    modifies text
    ensures var end := ParagraphEnd(old(text.chars), max);
      min != end ==> text.chars == Deleted(old(text.chars), min, end)
    ensures var end := ParagraphEnd(old(text.chars), max);
      min == end ==> text.chars == Deleted(old(text.chars), min, min + 1)
    ensures c' == CCursor(min, true)
  {
    var end := ParagraphEnd(text.chars, max);
    if min == end {
      c' := DeleteNextChar(text, CCursor(min, false));
    } else {
      c' := DeleteSelectedRange(text, min, end);
    }
  }

  /** With a single cursor inside a line, deleting to the paragraph start
      removes no newline and keeps every line before it; deleting to the
      paragraph end likewise keeps every line after it. */
  lemma ParagraphDeletesStayOnLine(s: string, i: nat)
    requires i <= |s|
    ensures var start := FindLineStart(s, i);
      '\n' !in CharRange(s, start, i) && Deleted(s, start, i) == s[..start] + s[i..]
    ensures var end := ParagraphEnd(s, i);
      '\n' !in CharRange(s, i, end) && Deleted(s, i, end) == s[..i] + s[end..]
  {
    var start := FindLineStart(s, i);
    var end := ParagraphEnd(s, i);
    RangeSplits(s, start, i);
    RangeSplits(s, i, end);
    assert forall k :: 0 <= k < |CharRange(s, start, i)| ==> CharRange(s, start, i)[k] == s[start + k];
    assert forall k :: 0 <= k < |CharRange(s, i, end)| ==> CharRange(s, i, end)[k] == s[i + k];
  }

  // ---------------------------------------------------------------------
  // Typing
  // ---------------------------------------------------------------------

  /** The number of bytes a character takes in UTF-8. */
  function Utf8Len(c: char): nat
  {
    var n := c as int;
    if n < 0x80 then 1 else if n < 0x800 then 2 else if n < 0x10000 then 3 else 4
  }

  /** The number of bytes a string takes in UTF-8. */
  function Utf8Length(s: string): (n: nat)
    ensures n >= |s|
  {
    if |s| == 0 then 0 else Utf8Length(s[..|s| - 1]) + Utf8Len(s[|s| - 1])
  }

  /** The text after wrapping the selection from `min` to `max` in a pair
      of brackets. */
  function Wrapped(s: string, min: nat, max: nat, open: char, close: char): string
    requires min <= max <= |s|
  {
    s[..min] + [open] + s[min..max] + [close] + s[max..]
  }

  /** Where the cursor ends up after a bracket wraps the selection, as the
      editor computes it: past the insertion, then back by the selection's
      length in bytes and one. The subtraction is on an unsigned index, so it
      panics when it would go below zero. */
  function WrapCursorAsWritten(s: string, min: nat, max: nat): Result<CCursor>
    requires min <= max <= |s|
  {
    var sel := s[min..max];
    var after := min + |sel| + 2;
    if after < Utf8Length(sel) + 1 then Panic("attempt to subtract with overflow")
    else Ok(CCursor(after - (Utf8Length(sel) + 1), true))
  }

  /** Typing a bracket over a selection, as written. */
  method WrapSelectionAsWritten(text: TextBuffer, min: nat, max: nat, open: char, close: char)
    returns (r: Result<CCursor>)
    requires min <= max <= |text.chars|
    modifies text
    ensures text.chars == Wrapped(old(text.chars), min, max, open, close)
    ensures r == WrapCursorAsWritten(old(text.chars), min, max)
  {
    var selection := text.chars[min..max];
    var selectionLen := Utf8Length(selection);
    var c := DeleteSelectedRange(text, min, max);
    RangeSplits(old(text.chars), min, max);
    c := InsertTextAt(c, text, [open] + selection + [close]);
    if c.index < selectionLen + 1 {
      return Panic("attempt to subtract with overflow");
    }
    r := Ok(c.(index := c.index - (selectionLen + 1)));
  }

  /** Typing a bracket over a selection: the selection is wrapped and the
      cursor goes back by the selection's length in characters and one. */
  method WrapSelection(text: TextBuffer, min: nat, max: nat, open: char, close: char) returns (c: CCursor)
    requires min <= max <= |text.chars|
    modifies text
    ensures text.chars == Wrapped(old(text.chars), min, max, open, close)
    ensures c == CCursor(min + 1, true)
  {
    var selection := text.chars[min..max];
    c := DeleteSelectedRange(text, min, max);
    RangeSplits(old(text.chars), min, max);
    c := InsertTextAt(c, text, [open] + selection + [close]);
    c := c.(index := c.index - (|selection| + 1));
  }

  /** After wrapping, the cursor sits right after the opening bracket, with
      the selection after it and the closing bracket after that. */
  lemma WrapCursorAfterOpening(s: string, min: nat, max: nat, open: char, close: char)
    requires min <= max <= |s|
    ensures var w := Wrapped(s, min, max, open, close);
      w[min] == open && w[min + 1..min + 1 + (max - min)] == s[min..max] && w[max + 1] == close &&
      |w| == |s| + 2
  {
  }

  /** On a selection of ASCII characters the computed cursor is the
      intended one. */
  lemma {:induction false} AsciiLength(s: string)
    requires forall i :: 0 <= i < |s| ==> s[i] as int < 0x80
    ensures Utf8Length(s) == |s|
  {
    if |s| > 0 {
      AsciiLength(s[..|s| - 1]);
    }
  }

  lemma WrapAsciiAgrees(s: string, min: nat, max: nat)
    requires min <= max <= |s|
    requires forall i :: min <= i < max ==> s[i] as int < 0x80
    ensures WrapCursorAsWritten(s, min, max) == Ok(CCursor(min + 1, true))
  {
    AsciiLength(s[min..max]);
  }

  /** Wrapping the selected `é`: the cursor lands before the opening
      bracket instead of after it. */
  lemma WrapMisplacesCursor()
    ensures WrapCursorAsWritten("é", 0, 1) == Ok(CCursor(0, true))
    ensures Wrapped("é", 0, 1, '(', ')')[0] == '('
  {
    assert "é"[0..1] == "é";
    assert Utf8Length("é") == Utf8Length("") + Utf8Len('é');
  }

  /** Wrapping the selected `éé`: the subtraction goes below zero. */
  lemma WrapPanics()
    ensures WrapCursorAsWritten("éé", 0, 2).Panic?
  {
    var s := "éé";
    assert s[0..2] == s;
    assert s[..1] == "é";
    assert "é"[..0] == "";
  }

  /** What a typed text does to the selection from `min` to `max`: nothing
      for an empty text or a line break (Enter handles those); a bracket or
      quote wraps the selection; anything else replaces it. The result is
      the new cursor, if the text changed. Any text switches the selection
      toggle off. */
  method OnText(text: TextBuffer, state: LivecodeTextEditState, min: nat, max: nat, t: string) returns (r: Option<CCursor>)
    requires min <= max <= |text.chars|
    modifies text, state`selectionToggle
    ensures !state.selectionToggle
    ensures t == "" || t == "\n" || t == "\r" ==> r.None? && text.chars == old(text.chars)
    ensures t in {"(", "[", "{", "\""} ==>
      r == Some(CCursor(min + 1, true)) && text.chars == Wrapped(old(text.chars), min, max, t[0], CloseOf(t[0]))
    ensures t !in {"", "\n", "\r", "(", "[", "{", "\""} ==>
      r == Some(CCursor(min + |t|, true)) && text.chars == Inserted(Deleted(old(text.chars), min, max), t, min)
  {
    state.selectionToggle := false;
    if t == "" || t == "\n" || t == "\r" {
      return None;
    }
    if t == "(" || t == "[" || t == "{" || t == "\"" {
      var c := WrapSelection(text, min, max, t[0], CloseOf(t[0]));
      return Some(c);
    }
    var c := DeleteSelectedRange(text, min, max);
    c := InsertTextAt(c, text, t);
    r := Some(c);
  }

  /** The closing partner of an opening bracket or quote. */
  function CloseOf(c: char): char
  {
    if c == '(' then ')' else if c == '[' then ']' else if c == '{' then '}' else c
  }

  // ---------------------------------------------------------------------
  // Backspace and Delete
  // ---------------------------------------------------------------------

  /** A bracket or quote pair with nothing in between. */
  predicate IsPair(a: char, b: char)
  {
    (a == '(' && b == ')') || (a == '[' && b == ']') || (a == '{' && b == '}') || (a == '"' && b == '"')
  }

  /** Backspace at a single cursor, as written: on a non-empty text it
      looks at the character before the cursor through `index - 1` on an
      unsigned index, which panics at the start of the text. */
  function BackspaceAsWritten(s: string, c: CCursor): Result<(string, CCursor)>
    requires c.index <= |s|
  {
    var i := c.index;
    if |s| == 0 then Ok((s, CCursor(0, false)))
    else if i == 0 then Panic("attempt to subtract with overflow")
    else if i < |s| && IsPair(s[i - 1], s[i]) then Ok((s[..i - 1] + s[i + 1..], CCursor(i - 1, true)))
    else Ok((Deleted(s, i - 1, i), CCursor(i - 1, true)))
  }

  /** Backspace at the start of a non-empty text panics. */
  lemma BackspaceAtStartPanics(s: string, c: CCursor)
    requires |s| > 0 && c.index == 0
    ensures BackspaceAsWritten(s, c).Panic?
  {
  }

  /** Backspace at a single cursor, with the start of the text handled as
      deleting the previous character handles it: nothing changes. */
  function BackspaceResult(s: string, c: CCursor): (string, CCursor)
    requires c.index <= |s|
  {
    var i := c.index;
    if |s| == 0 then (s, CCursor(0, false))
    else if i == 0 then (s, c)
    else if i < |s| && IsPair(s[i - 1], s[i]) then (s[..i - 1] + s[i + 1..], CCursor(i - 1, true))
    else (Deleted(s, i - 1, i), CCursor(i - 1, true))
  }

  /** Away from the start the two agree. */
  lemma BackspaceCorrected(s: string, c: CCursor)
    requires c.index <= |s|
    ensures c.index > 0 || |s| == 0 ==> BackspaceAsWritten(s, c) == Ok(BackspaceResult(s, c))
    ensures c.index == 0 ==> BackspaceResult(s, c).0 == s
  {
  }

  /** Backspace between a bracket pair deletes both brackets; elsewhere it
      deletes the one character before the cursor. */
  lemma BackspacePairs(s: string, c: CCursor)
    requires 0 < c.index < |s| && IsPair(s[c.index - 1], s[c.index])
    ensures var (t, c') := BackspaceResult(s, c);
      |t| == |s| - 2 && t == s[..c.index - 1] + s[c.index + 1..] && c'.index == c.index - 1
  {
  }

  /** Backspace with a single cursor and no modifier. */
  method BackspaceSingle(text: TextBuffer, c: CCursor) returns (c': CCursor)
    requires c.index <= |text.chars|
    modifies text
    ensures (text.chars, c') == BackspaceResult(old(text.chars), c)
  {
    if |text.chars| == 0 {
      return CCursor(0, false);
    }
    var i := c.index;
    if i == 0 {
      c' := DeletePreviousChar(text, c);
      assert Deleted(old(text.chars), 0, 0) == old(text.chars);
      return;
    }
    if i < |text.chars| && IsPair(text.chars[i - 1], text.chars[i]) {
      var icur := DeletePreviousChar(text, c);
      c' := DeleteNextChar(text, icur);
      assert text.chars == old(text.chars)[..i - 1] + old(text.chars)[i + 1..];
    } else {
      c' := DeletePreviousChar(text, c);
    }
  }

  /** The Backspace key on the selection from `primary` to `secondary`:
      with `paragraph` (Cmd) held it deletes back to the start of the
      paragraph; otherwise, with a single cursor it deletes the previous
      word when `word` (Alt or Ctrl) is held and the previous character
      otherwise; a selection is deleted. */
  method Backspace(text: TextBuffer, primary: nat, secondary: nat, paragraph: bool, word: bool, c: CCursor)
    returns (c': CCursor)
    requires primary <= |text.chars| && secondary <= |text.chars| && c.index == primary
    modifies text
    ensures paragraph ==>
      var lo := if primary < secondary then primary else secondary;
      var hi := if primary < secondary then secondary else primary;
      var start := FindLineStart(old(text.chars), lo);
      if start != hi then text.chars == Deleted(old(text.chars), start, hi) && c' == CCursor(start, true)
      else if start > 0 then text.chars == Deleted(old(text.chars), start - 1, start) && c' == CCursor(start - 1, true)
      else text.chars == old(text.chars) && c' == CCursor(0, true)
    ensures !paragraph && primary != secondary ==>
      var lo := if primary < secondary then primary else secondary;
      var hi := if primary < secondary then secondary else primary;
      text.chars == Deleted(old(text.chars), lo, hi) && c' == CCursor(lo, true)
    ensures !paragraph && primary == secondary && word ==>
      var b := PreviousWordBoundary(old(text.chars), primary);
      text.chars == Deleted(old(text.chars), b, primary) && c' == CCursor(b, true)
    ensures !paragraph && primary == secondary && !word ==> (text.chars, c') == BackspaceResult(old(text.chars), c)
  {
    var lo := if primary < secondary then primary else secondary;
    var hi := if primary < secondary then secondary else primary;
    if paragraph {
      c' := DeleteParagraphBeforeCursor(text, lo, hi);
    } else if primary != secondary {
      c' := DeleteSelectedRange(text, lo, hi);
    } else if word {
      c' := DeletePreviousWord(text, c);
    } else {
      c' := BackspaceSingle(text, c);
    }
  }

  /** The Delete key: with `paragraph` (Cmd) held it deletes up to the end
      of the paragraph; otherwise, with a single cursor the next word (Alt
      or Ctrl) or the next character is deleted, a selection is deleted;
      the cursor stays at the start and prefers the next row. */
  method Delete(text: TextBuffer, primary: nat, secondary: nat, paragraph: bool, word: bool) returns (c': CCursor)
    requires primary <= |text.chars| && secondary <= |text.chars|
    modifies text
    ensures paragraph ==>
      var lo := if primary < secondary then primary else secondary;
      var hi := if primary < secondary then secondary else primary;
      var end := ParagraphEnd(old(text.chars), hi);
      text.chars == (if lo != end then Deleted(old(text.chars), lo, end) else Deleted(old(text.chars), lo, lo + 1)) &&
      c' == CCursor(lo, true)
    ensures !paragraph && primary != secondary ==>
      var lo := if primary < secondary then primary else secondary;
      var hi := if primary < secondary then secondary else primary;
      text.chars == Deleted(old(text.chars), lo, hi) && c' == CCursor(lo, true)
    ensures !paragraph && primary == secondary && word ==>
      text.chars == Deleted(old(text.chars), primary, NextWordBoundary(old(text.chars), primary)) &&
      c' == CCursor(primary, true)
    ensures !paragraph && primary == secondary && !word ==>
      text.chars == Deleted(old(text.chars), primary, primary + 1) && c' == CCursor(primary, true)
  {
    var lo := if primary < secondary then primary else secondary;
    var hi := if primary < secondary then secondary else primary;
    if paragraph {
      c' := DeleteParagraphAfterCursor(text, lo, hi);
    } else if primary != secondary {
      c' := DeleteSelectedRange(text, lo, hi);
    } else if word {
      c' := DeleteNextWord(text, CCursor(primary, true));
    } else {
      c' := DeleteNextChar(text, CCursor(primary, true));
    }
    c' := c'.(preferNextRow := true);
  }
}
