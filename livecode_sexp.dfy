/** The s-expression helpers of the live-coding editor: finding the
    top-level expression around the cursor, formatting an expression, its
    indentation level, and the Tab and Enter keys built on them. Positions
    are character indices; the expression search counts one byte per
    character. */
module LivecodeSexp {
  import opened Wrappers
  import opened LivecodeTextEdit

  /** Opening minus closing parentheses. */
  function Balance(s: string): int
  {
    if |s| == 0 then 0
    else
      var c := s[|s| - 1];
      Balance(s[..|s| - 1]) + (if c == '(' then 1 else if c == ')' then -1 else 0)
  }

  // ---------------------------------------------------------------------
  // Formatting
  // ---------------------------------------------------------------------

  /** The formatter's state: the nesting level, the output so far and
      whether further spaces are dropped. */
  datatype FormatState = FormatState(lvl: int, out: string, noWhitespace: bool)

  const Start := FormatState(0, "", false)

  /** `n` levels of indentation, two spaces each; none for a level below
      one. */
  function Indent(n: int): (r: string)
    ensures |r| == if n <= 0 then 0 else 2 * n
    ensures forall i :: 0 <= i < |r| ==> r[i] == ' '
    decreases if n <= 0 then 0 else n
  {
    if n <= 0 then "" else Indent(n - 1) + "  "
  }

  /** What the formatter writes for one character: tabs and spaces after a
      space or a line break are dropped, a line break is followed by the
      indentation of the current level, everything else is copied. */
  function Emit(st: FormatState, c: char): string
  {
    if c == '\n' then "\n" + Indent(st.lvl)
    else if c == ' ' then (if st.noWhitespace then "" else " ")
    else if c == '\t' then ""
    else [c]
  }

  /** One character through the formatter. */
  function Step(st: FormatState, c: char): FormatState
  {
    var lvl := if c == '(' then st.lvl + 1 else if c == ')' then st.lvl - 1 else st.lvl;
    var noWhitespace := if c == '\n' || c == ' ' then true else if c == '\t' then st.noWhitespace else false;
    FormatState(lvl, st.out + Emit(st, c), noWhitespace)
  }

  /** A string through the formatter, from state `st`. */
  function Run(s: string, st: FormatState): FormatState
  {
    if |s| == 0 then st else Step(Run(s[..|s| - 1], st), s[|s| - 1])
  }

  /** The formatted expression. */
  function Format(input: string): string
  {
    Run(input, Start).out
  }

  /** Formats character by character. */
  method FormatSexp(input: string) returns (out: string)
    ensures out == Format(input)
  {
    var lvl := 0;
    out := "";
    var noWhitespace := false;
    for i := 0 to |input|
      invariant FormatState(lvl, out, noWhitespace) == Run(input[..i], Start)
    {
      assert input[..i + 1][..i] == input[..i];
      var c := input[i];
      if c == '(' {
        lvl := lvl + 1;
        out := out + [c];
        noWhitespace := false;
      } else if c == ')' {
        lvl := lvl - 1;
        out := out + [c];
        noWhitespace := false;
      } else if c == '\n' {
        out := out + [c];
        noWhitespace := true;
        var k := 0;
        while k < lvl
          invariant 0 <= k && (k <= lvl || k == 0)
          invariant out == Run(input[..i], Start).out + "\n" + Indent(k)
          decreases lvl - k
        {
          out := out + [' '] + [' '];
          k := k + 1;
        }
        assert Indent(k) == Indent(lvl);
      } else if c == ' ' {
        if !noWhitespace {
          out := out + [c];
          noWhitespace := true;
        }
      } else if c == '\t' {
      } else {
        out := out + [c];
        noWhitespace := false;
      }
    }
    assert input[..|input|] == input;
  }

  /** Running a concatenation runs its halves one after the other. */
  lemma {:induction false} RunAppend(a: string, b: string, st: FormatState)
    ensures Run(a + b, st) == Run(b, Run(a, st))
    decreases |b|
  {
    if |b| == 0 {
      assert a + b == a;
    } else {
      var init := b[..|b| - 1];
      RunAppend(a, init, st);
      assert (a + b)[..|a + b| - 1] == a + init;
    }
  }

  /** The formatter only appends. */
  lemma {:induction false} RunExtends(s: string, st: FormatState)
    ensures st.out <= Run(s, st).out
  {
    if |s| > 0 {
      RunExtends(s[..|s| - 1], st);
    }
  }

  /** The level is the balance of the parentheses read. */
  lemma {:induction false} FormatLevel(input: string)
    ensures Run(input, Start).lvl == Balance(input)
  {
    if |input| > 0 {
      FormatLevel(input[..|input| - 1]);
    }
  }

  /** A line break is followed by two spaces per open parenthesis before
      it. */
  lemma FormatNewline(pre: string)
    ensures Format(pre + "\n") == Format(pre) + "\n" + Indent(Balance(pre))
  {
    FormatLevel(pre);
    assert (pre + "\n")[..|pre + "\n"| - 1] == pre;
  }

  /** Spaces read after a space or a line break change nothing. */
  lemma {:induction false} SpacesSkipped(n: int, st: FormatState)
    requires st.noWhitespace
    ensures Run(Indent(n), st) == st
    decreases if n <= 0 then 0 else n
  {
    if n > 0 {
      SpacesSkipped(n - 1, st);
      RunAppend(Indent(n - 1), "  ", st);
      assert Run(" ", st) == st by {
        assert " "[..0] == "";
      }
      assert "  "[..1] == " ";
      assert Run("  ", st) == Step(Run(" ", st), ' ');
    }
  }

  /** Formatting a formatted expression changes nothing: reading the output
      puts the formatter in the state reading the input did. */
  lemma {:induction false} FormatStable(input: string)
    ensures Run(Format(input), Start) == Run(input, Start)
  {
    if |input| > 0 {
      var init := input[..|input| - 1];
      var c := input[|input| - 1];
      var st := Run(init, Start);
      FormatStable(init);
      assert Format(input) == Format(init) + Emit(st, c);
      RunAppend(Format(init), Emit(st, c), Start);
      if c == '\n' {
        RunAppend("\n", Indent(st.lvl), st);
        assert Run("\n", st) == Step(st, '\n');
        SpacesSkipped(st.lvl, Step(st, '\n'));
      } else if c == ' ' && !st.noWhitespace {
        assert Run(" ", st) == Step(st, ' ');
      } else if c == ' ' || c == '\t' {
        assert Emit(st, c) == "";
      } else {
        assert Run([c], st) == Step(st, c);
      }
    }
  }

  lemma FormatIdempotent(input: string)
    ensures Format(Format(input)) == Format(input)
  {
    FormatStable(input);
  }

  /** The text without spaces and tabs. */
  function Content(s: string): string
  {
    if |s| == 0 then ""
    else Content(s[..|s| - 1]) + (if s[|s| - 1] == ' ' || s[|s| - 1] == '\t' then "" else [s[|s| - 1]])
  }

  lemma {:induction false} ContentAppend(a: string, b: string)
    ensures Content(a + b) == Content(a) + Content(b)
    decreases |b|
  {
    if |b| == 0 {
      assert a + b == a;
    } else {
      ContentAppend(a, b[..|b| - 1]);
      assert (a + b)[..|a + b| - 1] == a + b[..|b| - 1];
    }
  }

  lemma {:induction false} ContentOfIndent(n: int)
    ensures Content(Indent(n)) == ""
    decreases if n <= 0 then 0 else n
  {
    if n > 0 {
      ContentOfIndent(n - 1);
      ContentAppend(Indent(n - 1), "  ");
      assert "  "[..1] == " ";
    }
  }

  /** Formatting changes only spaces and tabs: every other character is
      kept, in order. */
  lemma {:induction false} FormatKeepsContent(input: string)
    ensures Content(Format(input)) == Content(input)
  {
    if |input| > 0 {
      var init := input[..|input| - 1];
      var c := input[|input| - 1];
      var st := Run(init, Start);
      FormatKeepsContent(init);
      ContentAppend(Format(init), Emit(st, c));
      ContentOfEmit(st, c);
    }
  }

  /** What the formatter writes for a character has the content of that
      character. */
  lemma ContentOfEmit(st: FormatState, c: char)
    ensures Content(Emit(st, c)) == if c == ' ' || c == '\t' then "" else [c]
  {
    if c == '\n' {
      ContentAppend("\n", Indent(st.lvl));
      ContentOfIndent(st.lvl);
      assert Content("\n") == "\n" by {
        assert "\n"[..0] == "";
      }
    } else if c != ' ' && c != '\t' {
      assert Content([c]) == [c] by {
        assert [c][..0] == "";
      }
    } else if Emit(st, c) == " " {
      assert Content(" ") == "" by {
        assert " "[..0] == "";
      }
    }
  }

  /** The output holds no tab. */
  lemma {:induction false} FormatDropsTabs(input: string)
    ensures '\t' !in Format(input)
  {
    if |input| > 0 {
      var st := Run(input[..|input| - 1], Start);
      FormatDropsTabs(input[..|input| - 1]);
      assert Format(input) == st.out + Emit(st, input[|input| - 1]);
    }
  }

  /** On a single line, spaces are dropped after a space: the output never
      holds two spaces in a row. */
  lemma {:induction false} FormatSingleSpaces(input: string)
    requires '\n' !in input
    ensures var st := Run(input, Start);
      st.noWhitespace <==> |st.out| > 0 && st.out[|st.out| - 1] == ' '
    ensures var out := Format(input);
      forall i :: 0 <= i < |out| - 1 ==> !(out[i] == ' ' && out[i + 1] == ' ')
  {
    if |input| > 0 {
      var init := input[..|input| - 1];
      var c := input[|input| - 1];
      assert forall k :: 0 <= k < |init| ==> init[k] == input[k];
      FormatSingleSpaces(init);
      var st := Run(init, Start);
      var out := st.out + Emit(st, c);
      assert Format(input) == out;
      assert Format(init) == st.out;
      assert c != '\n' by {
        assert input[|input| - 1] == c;
      }
      assert |Emit(st, c)| <= 1;
      forall i | 0 <= i < |out| - 1
        ensures !(out[i] == ' ' && out[i + 1] == ' ')
      {
        if i + 1 < |st.out| {
          assert out[i] == st.out[i] && out[i + 1] == st.out[i + 1];
        } else {
          assert i + 1 == |st.out|;
          assert out[i] == st.out[i] && out[i + 1] == Emit(st, c)[0];
          if out[i] == ' ' {
            assert st.noWhitespace;
            assert Emit(st, c) == [c];
          }
        }
      }
    }
  }

  // ---------------------------------------------------------------------
  // Indentation level
  // ---------------------------------------------------------------------

  /** The indentation level at the end of a text, on an unsigned counter:
      a closing parenthesis with nothing open panics. */
  function IndentLevelAsWritten(input: string): Result<nat>
  {
    if |input| == 0 then Ok(0)
    else
      var prev := IndentLevelAsWritten(input[..|input| - 1]);
      var c := input[|input| - 1];
      if prev.Panic? then prev
      else if c == '(' then Ok(prev.value + 1)
      else if c == ')' then (if prev.value == 0 then Panic("attempt to subtract with overflow") else Ok(prev.value - 1))
      else prev
  }

  method SexpIndentLevel(input: string) returns (r: Result<nat>)
    ensures r == IndentLevelAsWritten(input)
  {
    var lvl: nat := 0;
    for i := 0 to |input|
      invariant IndentLevelAsWritten(input[..i]) == Ok(lvl)
    {
      assert input[..i + 1][..i] == input[..i];
      if input[i] == '(' {
        lvl := lvl + 1;
      } else if input[i] == ')' {
        if lvl == 0 {
          r := Panic("attempt to subtract with overflow");
          PanicStays(input, i + 1);
          return;
        }
        lvl := lvl - 1;
      }
    }
    assert input[..|input|] == input;
    return Ok(lvl);
  }

  /** Once the counter has panicked, the rest of the text keeps it so. */
  lemma {:induction false} PanicStays(input: string, k: nat)
    requires k <= |input| && IndentLevelAsWritten(input[..k]).Panic?
    ensures IndentLevelAsWritten(input) == IndentLevelAsWritten(input[..k])
    decreases |input| - k
  {
    if k < |input| {
      assert input[..k + 1][..k] == input[..k];
      PanicStays(input, k + 1);
    } else {
      assert input[..k] == input;
    }
  }

  /** The level is the balance when no prefix closes more than it opens,
      and the counter panics when one does. */
  lemma {:induction false} IndentLevelBalance(input: string)
    ensures IndentLevelAsWritten(input).Ok? <==> forall k :: 0 <= k <= |input| ==> Balance(input[..k]) >= 0
    ensures IndentLevelAsWritten(input).Ok? ==> IndentLevelAsWritten(input).value == Balance(input)
  {
    if |input| > 0 {
      var init := input[..|input| - 1];
      IndentLevelBalance(init);
      assert input[..|input|] == input;
      assert forall k :: 0 <= k <= |init| ==> init[..k] == input[..k];
      if IndentLevelAsWritten(init).Ok? {
        assert forall k :: 0 <= k <= |input| ==> Balance(input[..k]) >= 0 || k == |input| || Balance(init[..k]) < 0;
      } else {
        var k :| 0 <= k <= |init| && Balance(init[..k]) < 0;
        assert Balance(input[..k]) < 0;
      }
    }
  }

  // ---------------------------------------------------------------------
  // Finding the top-level expression
  // ---------------------------------------------------------------------

  /** The expression found: from its opening parenthesis up to past its
      closing one. */
  datatype SexpRange = SexpRange(opening: nat, closing: nat)

  /** The leftward scan: its position, the last opening parenthesis seen,
      the balance so far, whether the character just read was an opening
      parenthesis and whether any was. */
  datatype LeftScan = LeftScan(pos: nat, lastOpening: nat, balance: int, lparenFound: bool, sexpFound: bool)

  /** The rightward scan: its position, the position after the last closing
      parenthesis seen, and the balance. */
  datatype RightScan = RightScan(pos: nat, lastClosing: nat, balance: int)

  /** Where the search starts: one past the cursor when the cursor is on an
      opening parenthesis. */
  function StartOf(s: string, p: nat): (r: nat)
    requires p <= |s|
    ensures r <= |s| && (r == p || (r == p + 1 && s[p] == '('))
  {
    if p < |s| && s[p] == '(' then p + 1 else p
  }

  function LeftStep(st: LeftScan, c: char): LeftScan
    requires st.pos > 0
  {
    if c == '(' then LeftScan(st.pos - 1, st.pos - 1, st.balance + 1, true, true)
    else if c == ')' then st.(pos := st.pos - 1, balance := st.balance - 1, lparenFound := false)
    else st.(pos := st.pos - 1, lparenFound := false)
  }

  /** Scans leftwards to the start of the text, or to a line break right
      before an opening parenthesis. */
  function LeftFrom(s: string, st: LeftScan): (r: LeftScan)
    requires st.pos <= |s|
    ensures r.pos <= st.pos
    ensures r.sexpFound ==> st.sexpFound || (r.lastOpening < st.pos && s[r.lastOpening] == '(')
    ensures st.sexpFound ==> r.sexpFound && (r.lastOpening == st.lastOpening || (r.lastOpening < st.pos && s[r.lastOpening] == '('))
    decreases st.pos
  {
    if st.pos == 0 then st
    else if s[st.pos - 1] == '\n' && st.lparenFound then st
    else LeftFrom(s, LeftStep(st, s[st.pos - 1]))
  }

  function RightStep(st: RightScan, c: char): RightScan
  {
    if c == '(' then st.(pos := st.pos + 1, balance := st.balance + 1)
    else if c == ')' then RightScan(st.pos + 1, st.pos + 1, st.balance - 1)
    else st.(pos := st.pos + 1)
  }

  /** Scans rightwards until the balance reaches zero or the text ends. */
  function RightFrom(s: string, st: RightScan): (r: RightScan)
    requires st.pos <= |s|
    ensures st.pos <= r.pos <= |s|
    ensures r.lastClosing == st.lastClosing || (st.pos < r.lastClosing <= |s| && s[r.lastClosing - 1] == ')')
    decreases |s| - st.pos
  {
    if st.pos == |s| then st
    else
      var st' := RightStep(st, s[st.pos]);
      if st'.balance == 0 then st' else RightFrom(s, st')
  }

  /** The top-level expression around position `p`: the last opening
      parenthesis of the leftward scan and the last closing one of the
      rightward scan, when some opening parenthesis was seen and the two
      scans balance. */
  function ToplevelSexp(s: string, p: nat): (r: Option<SexpRange>)
    requires p <= |s|
    ensures r.Some? ==>
      r.value.opening < StartOf(s, p) <= r.value.closing <= |s| && s[r.value.opening] == '(' &&
      (r.value.closing == StartOf(s, p) || s[r.value.closing - 1] == ')')
  {
    var p' := StartOf(s, p);
    var l := LeftFrom(s, LeftScan(p', p', 0, false, false));
    var r := RightFrom(s, RightScan(p', p', l.balance));
    if r.balance == 0 && l.sexpFound then Some(SexpRange(l.lastOpening, r.lastClosing)) else None
  }

  /** Without an opening parenthesis before the search start nothing is
      found. */
  lemma NoOpeningNoSexp(s: string, p: nat)
    requires p <= |s| && forall i :: 0 <= i < StartOf(s, p) ==> s[i] != '('
    ensures ToplevelSexp(s, p).None?
  {
  }

  /** The leftward loop. */
  method ScanLeft(s: string, pos: nat) returns (l: LeftScan)
    requires pos <= |s|
    ensures l == LeftFrom(s, LeftScan(pos, pos, 0, false, false))
  {
    var lpos: nat, lastOpening: nat, balance, lparenFound, sexpFound := pos, pos, 0, false, false;
    while lpos > 0
      invariant lpos <= pos
      invariant LeftFrom(s, LeftScan(lpos, lastOpening, balance, lparenFound, sexpFound)) ==
                LeftFrom(s, LeftScan(pos, pos, 0, false, false))
      decreases lpos
    {
      var c := s[lpos - 1];
      if c == '\n' && lparenFound {
        break;
      } else if c == '(' {
        sexpFound := true;
        lpos := lpos - 1;
        lastOpening := lpos;
        balance := balance + 1;
        lparenFound := true;
      } else if c == ')' {
        lpos := lpos - 1;
        balance := balance - 1;
        lparenFound := false;
      } else {
        lpos := lpos - 1;
        lparenFound := false;
      }
    }
    l := LeftScan(lpos, lastOpening, balance, lparenFound, sexpFound);
  }

  /** The rightward loop, starting from the leftward loop's balance. */
  method ScanRight(s: string, pos: nat, balance0: int) returns (r: RightScan)
    requires pos <= |s|
    ensures r == RightFrom(s, RightScan(pos, pos, balance0))
  {
    var rpos: nat, lastClosing: nat, balance := pos, pos, balance0;
    while rpos < |s|
      invariant pos <= rpos <= |s|
      invariant RightFrom(s, RightScan(rpos, lastClosing, balance)) == RightFrom(s, RightScan(pos, pos, balance0))
      decreases |s| - rpos
    {
      var c := s[rpos];
      if c == '(' {
        rpos := rpos + 1;
        balance := balance + 1;
      } else if c == ')' {
        rpos := rpos + 1;
        lastClosing := rpos;
        balance := balance - 1;
      } else {
        rpos := rpos + 1;
      }
      if balance == 0 {
        break;
      }
    }
    r := RightScan(rpos, lastClosing, balance);
  }

  /** Searches as the editor does: one past an opening parenthesis under
      the cursor, then leftwards, then rightwards. */
  method FindToplevelSexp(s: string, p: nat) returns (r: Option<SexpRange>)
    requires p <= |s|
    ensures r == ToplevelSexp(s, p)
  {
    var pos: nat := p;
    if p < |s| && s[p] == '(' {
      pos := p + 1;
    }
    var left := ScanLeft(s, pos);
    var right := ScanRight(s, pos, left.balance);
    if right.balance == 0 && left.sexpFound {
      r := Some(SexpRange(left.lastOpening, right.lastClosing));
    } else {
      r := None;
    }
  }

  /** In `(a (b))` with the cursor on `b` the whole expression is found. */
  lemma NestedFindsOuter()
    ensures ToplevelSexp("(a (b))", 4) == Some(SexpRange(0, 7))
  {
    var s := "(a (b))";
    assert s[0] == '(' && s[1] == 'a' && s[2] == ' ' && s[3] == '(' && s[4] == 'b' && s[5] == ')' && s[6] == ')';
    var l := LeftFrom(s, LeftScan(4, 4, 0, false, false));
    assert l == LeftScan(0, 0, 2, true, true) by {
      assert LeftFrom(s, LeftScan(4, 4, 0, false, false)) == LeftFrom(s, LeftScan(3, 3, 1, true, true));
      assert LeftFrom(s, LeftScan(3, 3, 1, true, true)) == LeftFrom(s, LeftScan(2, 3, 1, false, true));
      assert LeftFrom(s, LeftScan(2, 3, 1, false, true)) == LeftFrom(s, LeftScan(1, 3, 1, false, true));
      assert LeftFrom(s, LeftScan(1, 3, 1, false, true)) == LeftFrom(s, LeftScan(0, 0, 2, true, true));
    }
    assert RightFrom(s, RightScan(4, 4, 2)) == RightScan(7, 7, 0) by {
      assert RightFrom(s, RightScan(4, 4, 2)) == RightFrom(s, RightScan(5, 4, 2));
      assert RightFrom(s, RightScan(5, 4, 2)) == RightFrom(s, RightScan(6, 6, 1));
    }
  }

  /** Text after the last closing parenthesis up to the cursor belongs to
      the found range: at the end of `(a) b` the range is the whole text,
      the trailing ` b` included. */
  lemma TrailingTextIncluded()
    ensures ToplevelSexp("(a) b", 5) == Some(SexpRange(0, 5))
  {
    var s := "(a) b";
    assert LeftFrom(s, LeftScan(5, 5, 0, false, false)) == LeftScan(0, 0, 0, true, true) by {
      assert LeftFrom(s, LeftScan(5, 5, 0, false, false)) == LeftFrom(s, LeftScan(4, 5, 0, false, false));
      assert LeftFrom(s, LeftScan(4, 5, 0, false, false)) == LeftFrom(s, LeftScan(3, 5, 0, false, false));
      assert LeftFrom(s, LeftScan(3, 5, 0, false, false)) == LeftFrom(s, LeftScan(2, 5, -1, false, false));
      assert LeftFrom(s, LeftScan(2, 5, -1, false, false)) == LeftFrom(s, LeftScan(1, 5, -1, false, false));
      assert LeftFrom(s, LeftScan(1, 5, -1, false, false)) == LeftFrom(s, LeftScan(0, 0, 0, true, true));
    }
  }

  /** In `(a)` and `(b c)` on two lines, with the cursor in the second, the
      leftward scan stops at the line break and only the second is found. */
  lemma SecondLineFound()
    ensures ToplevelSexp("(a)\n(b c)", 6) == Some(SexpRange(4, 9))
  {
    var s := "(a)\n(b c)";
    assert LeftFrom(s, LeftScan(6, 6, 0, false, false)) == LeftScan(4, 4, 1, true, true) by {
      assert LeftFrom(s, LeftScan(6, 6, 0, false, false)) == LeftFrom(s, LeftScan(5, 6, 0, false, false));
      assert LeftFrom(s, LeftScan(5, 6, 0, false, false)) == LeftFrom(s, LeftScan(4, 4, 1, true, true));
    }
    assert RightFrom(s, RightScan(6, 6, 1)) == RightScan(9, 9, 0) by {
      assert RightFrom(s, RightScan(6, 6, 1)) == RightFrom(s, RightScan(7, 6, 1));
      assert RightFrom(s, RightScan(7, 6, 1)) == RightFrom(s, RightScan(8, 6, 1));
    }
  }

  // ---------------------------------------------------------------------
  // Tab and Enter
  // ---------------------------------------------------------------------

  /** The Tab key: the top-level expression around the start of the
      selection is replaced by its formatted form; the cursor stays. */
  method FormatToplevel(text: TextBuffer, min: nat) returns (formatted: bool)
    requires min <= |text.chars|
    modifies text
    ensures var r := ToplevelSexp(old(text.chars), min);
      (r.None? ==> !formatted && text.chars == old(text.chars)) &&
      (r.Some? ==> (formatted &&
        text.chars == old(text.chars)[..r.value.opening] + Format(old(text.chars)[r.value.opening..r.value.closing]) +
                      old(text.chars)[r.value.closing..]))
  {
    var r := FindToplevelSexp(text.chars, min);
    if r.None? {
      return false;
    }
    var o, c := r.value.opening, r.value.closing;
    var out := FormatSexp(text.chars[o..c]);
    var cur := DeleteSelectedRange(text, o, c);
    RangeSplits(old(text.chars), o, c);
    cur := InsertTextAt(cur, text, out);
    formatted := true;
  }

  /** Formatting the expression leaves the rest of the text, and all but
      the spaces and tabs of the expression, as they were. */
  lemma ToplevelFormatKeepsContent(s: string, min: nat)
    requires min <= |s| && ToplevelSexp(s, min).Some?
    ensures var r := ToplevelSexp(s, min).value;
      Content(s[..r.opening] + Format(s[r.opening..r.closing]) + s[r.closing..]) == Content(s)
  {
    var r := ToplevelSexp(s, min).value;
    ReplaceKeepsContent(s, r.opening, r.closing);
  }

  lemma ReplaceKeepsContent(s: string, o: nat, c: nat)
    requires o <= c <= |s|
    ensures Content(s[..o] + Format(s[o..c]) + s[c..]) == Content(s)
  {
    var a, b, d := s[..o], s[o..c], s[c..];
    RangeSplits(s, o, c);
    assert CharRange(s, o, c) == b;
    FormatKeepsContent(b);
    ContentOfMiddle(a, b, Format(b), d);
  }

  /** Swapping the middle of a text for one with the same content keeps the
      content of the whole. */
  lemma ContentOfMiddle(a: string, b: string, b': string, d: string)
    requires Content(b') == Content(b)
    ensures Content(a + b' + d) == Content(a + b + d)
  {
    ContentAppend(a + b', d);
    ContentAppend(a, b');
    ContentAppend(a + b, d);
    ContentAppend(a, b);
  }

  /** The Enter key: with the command modifier the top-level expression
      around the start of the selection is handed on for evaluation and the
      text is left as it is; without it the selection is replaced by a line
      break. Either way the selection toggle is switched off. */
  method Enter(text: TextBuffer, state: LivecodeTextEditState, min: nat, max: nat, command: bool)
    returns (c: Option<CCursor>, code: Option<string>)
    requires min <= max <= |text.chars|
    modifies text, state`selectionToggle
    ensures !state.selectionToggle
    ensures command ==> (c.None? && text.chars == old(text.chars) &&
      code == (var r := ToplevelSexp(old(text.chars), min);
               if r.Some? then Some(old(text.chars)[r.value.opening..r.value.closing]) else None))
    ensures !command ==> (code.None? && c == Some(CCursor(min + 1, true)) &&
      text.chars == Inserted(Deleted(old(text.chars), min, max), "\n", min))
  {
    state.selectionToggle := false;
    if command {
      var r := FindToplevelSexp(text.chars, min);
      c := None;
      code := if r.Some? then Some(text.chars[r.value.opening..r.value.closing]) else None;
    } else {
      var cur := DeleteSelectedRange(text, min, max);
      cur := InsertTextAt(cur, text, "\n");
      c, code := Some(cur), None;
    }
  }

  /** What Enter with the command modifier hands on is a whole expression:
      it starts with an opening parenthesis and, when the search went past
      the cursor, ends with a closing one. */
  lemma EvaluatedIsExpression(s: string, min: nat)
    requires min <= |s| && ToplevelSexp(s, min).Some?
    ensures var r := ToplevelSexp(s, min).value;
      var code := s[r.opening..r.closing];
      |code| > 0 && code[0] == '(' && (r.closing == StartOf(s, min) || code[|code| - 1] == ')')
  {
  }
}
