/** The single-line (optionally multi-line) edit box: typing, the control
    keys that edit, select, paste and undo, the one-step undo snapshot,
    scrolling the view, and the touch-press phases. Layout (line bounds,
    glyph positions, the view offset following the cursor) and Unicode
    segmentation are outside this model: where a key needs a position found
    by them, the position is given with the key. Positions are character
    indices. */
module CustomEditbox {
  import opened Wrappers

  // ---------------------------------------------------------------------
  // State
  // ---------------------------------------------------------------------

  /** The kind of the last edit, which decides when a new undo snapshot is
      taken. */
  datatype LastEdit = NoEdit | InsertEdit | DeleteEdit | PasteEdit

  /** The undo snapshot: a text with its edit and selection positions. */
  datatype Snapshot = Snapshot(text: string, editPos: nat, selPos: nat)

  /** What handling a key or character asks of the caller. */
  datatype EditAction = Nothing | Unhandled | Activate | Edit

  /** The edit box's editing state as a value. */
  datatype BoxState = BoxState(text: string, editPos: nat, selPos: nat, oldState: Option<Snapshot>,
                               lastEdit: LastEdit, editXCoord: Option<real>, editable: bool, multiLine: bool)

  predicate ValidSnapshot(o: Snapshot)
  {
    o.editPos <= |o.text| && o.selPos <= |o.text|
  }

  /** Both positions, and the snapshot's, lie in their texts. */
  predicate ValidState(s: BoxState)
  {
    s.editPos <= |s.text| && s.selPos <= |s.text| && (s.oldState.Some? ==> ValidSnapshot(s.oldState.value))
  }

  /** The selected range. */
  function Lo(s: BoxState): nat
  {
    if s.editPos <= s.selPos then s.editPos else s.selPos
  }

  function Hi(s: BoxState): nat
  {
    if s.editPos <= s.selPos then s.selPos else s.editPos
  }

  function Snap(s: BoxState): Snapshot
  {
    Snapshot(s.text, s.editPos, s.selPos)
  }

  /** `t` in place of the characters from `lo` up to `hi`. */
  function Replaced(text: string, lo: nat, hi: nat, t: string): (r: string)
    requires lo <= hi <= |text|
    ensures |r| == |text| - (hi - lo) + |t|
  {
    text[..lo] + t + text[hi..]
  }

  /** The state with a snapshot of itself taken, when `take` holds, and the
      last edit kind set to `kind`. */
  function Snapshotted(s: BoxState, take: bool, kind: LastEdit): BoxState
  {
    if take then s.(oldState := Some(Snap(s)), lastEdit := kind) else s
  }

  // ---------------------------------------------------------------------
  // Typing a character
  // ---------------------------------------------------------------------

  /** A typed character replaces the selection, or is inserted at the
      cursor, and the cursor goes right after it. A snapshot is taken when
      the last edit was not typing or a selection is replaced. A box that
      is not editable leaves it all alone. */
  function AfterChar(s: BoxState, c: char): (r: (BoxState, EditAction))
    requires ValidState(s)
    ensures ValidState(r.0)
  {
    if !s.editable then (s, Unhandled)
    else
      var lo, hi := Lo(s), Hi(s);
      var s1 := Snapshotted(s, s.lastEdit != InsertEdit || lo < hi, InsertEdit);
      (s1.(text := Replaced(s.text, lo, hi, [c]), editPos := lo + 1, selPos := lo + 1, editXCoord := None), Edit)
  }

  // ---------------------------------------------------------------------
  // Control keys
  // ---------------------------------------------------------------------

  /** The control keys. `Home` and `End` carry the start and end of the
      cursor's laid-out line, used without Ctrl; `Navigate` stands for the
      arrow and page keys with the position layout and segmentation find
      for them (none at the start or end for a plain arrow); `DeleteKey`
      carries the next grapheme boundary (the next word boundary with Ctrl),
      none at the end; `BackspaceKey` carries the previous word boundary,
      used with Ctrl; `PasteKey` carries the clipboard contents. */
  datatype Key =
    | Escape
    | Return
    | Tab
    | Home(lineStart: nat)
    | End(lineEnd: nat)
    | Navigate(target: Option<nat>, x: Option<real>)
    | DeleteKey(next: Option<nat>)
    | BackspaceKey(wordStart: nat)
    | Deselect
    | SelectAll
    | Cut
    | Copy
    | PasteKey(clipboard: Option<string>)
    | Undo
    | Redo
    | OtherKey

  /** The positions a key carries lie in the text, after the cursor for
      Delete and before it for Backspace. */
  predicate KeyFits(s: BoxState, key: Key)
  {
    match key
    case Home(p) => p <= |s.text|
    case End(p) => p <= |s.text|
    case Navigate(t, _) => t.Some? ==> t.value <= |s.text|
    case DeleteKey(n) => n.Some? ==> s.editPos <= n.value <= |s.text|
    case BackspaceKey(w) => w <= s.editPos
    case _ => true
  }

  /** What a key asks to be done once its own effects have been applied. */
  datatype Action =
    | ActNone
    | ActUnhandled
    | ActActivate
    | ActEdit
    | ActInsert(t: string, kind: LastEdit)
    | ActDelete(lo: nat, hi: nat)
    | ActMove(pos: nat, x: Option<real>)

  predicate ActionFits(s: BoxState, a: Action)
  {
    match a
    case ActDelete(lo, hi) => lo <= hi <= |s.text|
    case ActMove(p, _) => p <= |s.text|
    case _ => true
  }

  /** C0 and C1 control characters. */
  predicate IsControl(c: char)
  {
    c < ' ' || (0x7f <= c as int <= 0x9f)
  }

  /** The position of the first control character, or the length. */
  function FirstControl(t: string): (r: nat)
    ensures r <= |t|
  {
    if |t| == 0 then 0 else if IsControl(t[0]) then 0 else 1 + FirstControl(t[1..])
  }

  /** The text a paste inserts: all of it in a multi-line box, else what
      comes before the first control character. */
  function Pasted(content: string, multiLine: bool): string
  {
    if multiLine then content else content[..FirstControl(content)]
  }

  /** Undo and Redo: the text and positions are swapped with the snapshot
      and the last edit kind is forgotten. Without a snapshot nothing
      changes. */
  function Swapped(s: BoxState): (r: BoxState)
    requires ValidState(s)
    ensures ValidState(r)
  {
    if s.oldState.None? then s
    else
      var o := s.oldState.value;
      s.(text := o.text, editPos := o.editPos, selPos := o.selPos, oldState := Some(Snap(s)),
         lastEdit := NoEdit, editXCoord := None)
  }

  /** A key's own effects, the action it asks for, what it puts on the
      clipboard, and whether the selection is extended. */
  function KeyAction(s: BoxState, key: Key, ctrl: bool, shift: bool): (r: (BoxState, Action, Option<string>, bool))
    requires ValidState(s) && KeyFits(s, key)
    ensures ValidState(r.0) && ActionFits(r.0, r.1)
  {
    var pos, lo, hi := s.editPos, Lo(s), Hi(s);
    var haveSel := lo < hi;
    match key
    case Escape =>
      if s.editPos != s.selPos then (s.(selPos := s.editPos), ActNone, None, shift)
      else (s, ActUnhandled, None, shift)
    case Return =>
      if ctrl && s.multiLine then (s, ActActivate, None, shift)
      else if s.multiLine then (s, ActInsert("\n", InsertEdit), None, shift)
      else (s, ActUnhandled, None, shift)
    case Tab => (s, ActInsert("\t", InsertEdit), None, shift)
    case Home(lineStart) => (s, ActMove(if ctrl then 0 else lineStart, None), None, shift)
    case End(lineEnd) => (s, ActMove(if ctrl then |s.text| else lineEnd, None), None, shift)
    case Navigate(target, x) =>
      if target.Some? then (s, ActMove(target.value, x), None, shift) else (s, ActNone, None, shift)
    case DeleteKey(next) =>
      if haveSel then (s, ActDelete(lo, hi), None, shift)
      else if next.Some? then (s, ActDelete(pos, next.value), None, shift)
      else (s, ActNone, None, shift)
    case BackspaceKey(wordStart) =>
      if haveSel then (s, ActDelete(lo, hi), None, shift)
      else if ctrl then (s, ActDelete(wordStart, pos), None, shift)
      else (s, ActDelete(if pos == 0 then 0 else pos - 1, pos), None, shift)
    case Deselect => (s.(selPos := pos), ActNone, None, shift)
    case SelectAll => (s.(selPos := 0), ActMove(|s.text|, None), None, true)
    case Cut =>
      if haveSel then (s, ActDelete(lo, hi), Some(s.text[lo..hi]), shift)
      else (s, ActUnhandled, None, shift)
    case Copy =>
      if haveSel then (s, ActNone, Some(s.text[lo..hi]), shift)
      else (s, ActUnhandled, None, shift)
    case PasteKey(clipboard) =>
      if clipboard.Some? then (s, ActInsert(Pasted(clipboard.value, s.multiLine), PasteEdit), None, shift)
      else (s, ActNone, None, shift)
    case Undo => (Swapped(s), ActEdit, None, shift)
    case Redo => (Swapped(s), ActEdit, None, shift)
    case OtherKey => (s, ActUnhandled, None, shift)
  }

  /** Carries out an action. An insertion replaces the selection (always
      taking a snapshot) or goes in at the cursor (taking one when the kind
      of edit changes); a deletion takes a snapshot when the last edit was
      not one; both leave an empty selection after the change. A move sets
      the cursor, and the selection too unless it is being extended. */
  function ApplyAction(s: BoxState, a: Action, shift: bool): (r: (BoxState, EditAction))
    requires ValidState(s) && ActionFits(s, a)
    ensures ValidState(r.0)
  {
    match a
    case ActNone => (s, Nothing)
    case ActUnhandled => (s, Unhandled)
    case ActActivate => (s, Activate)
    case ActEdit => (s, Edit)
    case ActInsert(t, kind) =>
      var lo, hi := Lo(s), Hi(s);
      var s1 := Snapshotted(s, lo < hi || s.lastEdit != kind, kind);
      (s1.(text := Replaced(s.text, lo, hi, t), editPos := lo + |t|, selPos := lo + |t|, editXCoord := None), Edit)
    case ActDelete(lo, hi) =>
      var s1 := Snapshotted(s, s.lastEdit != DeleteEdit, DeleteEdit);
      (s1.(text := Replaced(s.text, lo, hi, ""), editPos := lo, selPos := lo, editXCoord := None), Edit)
    case ActMove(p, x) =>
      (s.(editPos := p, selPos := if shift then s.selPos else p, editXCoord := x), Nothing)
  }

  /** A control key: nothing in a box that is not editable; otherwise the
      key's own effects, then its action. The third component is what the
      key puts on the clipboard. */
  function AfterKey(s: BoxState, key: Key, ctrl: bool, shift: bool): (r: (BoxState, EditAction, Option<string>))
    requires ValidState(s) && KeyFits(s, key)
    ensures ValidState(r.0)
  {
    if !s.editable then (s, Unhandled, None)
    else
      var (s1, a, clip, sh) := KeyAction(s, key, ctrl, shift);
      var (s2, res) := ApplyAction(s1, a, sh);
      (s2, res, clip)
  }

  // ---------------------------------------------------------------------
  // Properties of typing and the control keys
  // ---------------------------------------------------------------------

  /** A box that is not editable ignores characters and control keys. */
  lemma NotEditableIgnores(s: BoxState, c: char, key: Key, ctrl: bool, shift: bool)
    requires ValidState(s) && KeyFits(s, key) && !s.editable
    ensures AfterChar(s, c) == (s, Unhandled)
    ensures AfterKey(s, key, ctrl, shift) == (s, Unhandled, None)
  {
  }

  /** The typed character sits right before the cursor, which sits where
      the selection began; the text around it is kept. */
  lemma TypedBeforeCursor(s: BoxState, c: char)
    requires ValidState(s) && s.editable
    ensures var (t, a) := AfterChar(s, c);
      a == Edit && t.editPos == t.selPos == Lo(s) + 1 && t.text[Lo(s)] == c &&
      t.text[..Lo(s)] == s.text[..Lo(s)] && t.text[Lo(s) + 1..] == s.text[Hi(s)..]
  {
  }

  /** Typing after something other than typing, or over a selection, can be
      undone in one step. */
  lemma TypingUndoes(s: BoxState, c: char)
    requires ValidState(s) && s.editable && (s.lastEdit != InsertEdit || Lo(s) < Hi(s))
    ensures Snap(Swapped(AfterChar(s, c).0)) == Snap(s)
  {
  }

  /** Characters typed one after the other form one undo group: undoing
      after the second restores the state before the first. */
  lemma TypingGroups(s: BoxState, c1: char, c2: char)
    requires ValidState(s) && s.editable && (s.lastEdit != InsertEdit || Lo(s) < Hi(s))
    ensures var t := AfterChar(AfterChar(s, c1).0, c2).0;
      t.oldState == AfterChar(s, c1).0.oldState && Snap(Swapped(t)) == Snap(s)
  {
  }

  /** Undo twice gives back the text, the positions and the snapshot. */
  lemma UndoTwice(s: BoxState)
    requires ValidState(s) && s.oldState.Some?
    ensures var t := Swapped(Swapped(s));
      Snap(t) == Snap(s) && t.oldState == s.oldState && t.lastEdit == NoEdit
  {
  }

  /** Undo and Redo are one key: both swap. */
  lemma UndoIsRedo(s: BoxState, ctrl: bool, shift: bool)
    requires ValidState(s) && s.editable
    ensures AfterKey(s, Undo, ctrl, shift) == AfterKey(s, Redo, ctrl, shift)
    ensures AfterKey(s, Undo, ctrl, shift).0 == Swapped(s)
  {
  }

  /** What the first control character cuts off. */
  lemma {:induction false} FirstControlSpec(t: string)
    ensures forall i :: 0 <= i < FirstControl(t) ==> !IsControl(t[i])
    ensures FirstControl(t) == |t| || IsControl(t[FirstControl(t)])
  {
    if |t| > 0 && !IsControl(t[0]) {
      FirstControlSpec(t[1..]);
    }
  }

  /** In a single-line box a paste inserts the clipboard up to its first
      control character, and all of it when it holds none. */
  lemma PasteTruncates(content: string)
    ensures var p := Pasted(content, false);
      p <= content && (forall i :: 0 <= i < |p| ==> !IsControl(p[i])) &&
      (|p| == |content| || IsControl(content[|p|]))
    ensures (forall i :: 0 <= i < |content| ==> !IsControl(content[i])) ==> Pasted(content, false) == content
    ensures Pasted(content, true) == content
  {
    FirstControlSpec(content);
  }

  /** Delete and Backspace over a selection remove it and leave the cursor
      at its start. */
  lemma DeleteSelection(s: BoxState, key: Key, ctrl: bool, shift: bool)
    requires ValidState(s) && s.editable && KeyFits(s, key) && Lo(s) < Hi(s)
    requires key.DeleteKey? || key.BackspaceKey? || key.Cut?
    ensures var (t, a, _) := AfterKey(s, key, ctrl, shift);
      a == Edit && t.text == s.text[..Lo(s)] + s.text[Hi(s)..] && t.editPos == t.selPos == Lo(s)
  {
  }

  /** Plain Backspace without a selection removes exactly the character
      before the cursor; at the start of the text it removes nothing. */
  lemma BackspaceOneChar(s: BoxState, wordStart: nat, shift: bool)
    requires ValidState(s) && s.editable && s.editPos == s.selPos && wordStart <= s.editPos
    ensures var (t, a, _) := AfterKey(s, BackspaceKey(wordStart), false, shift);
      a == Edit &&
      (s.editPos > 0 ==> |t.text| == |s.text| - 1 && t.text == s.text[..s.editPos - 1] + s.text[s.editPos..] &&
                         t.editPos == s.editPos - 1) &&
      (s.editPos == 0 ==> t.text == s.text)
  {
  }

  /** Deletions one after the other form one undo group. */
  lemma DeletesGroup(s: BoxState, k1: Key, k2: Key, shift: bool)
    requires ValidState(s) && s.editable && s.lastEdit != DeleteEdit
    requires k1.BackspaceKey? && KeyFits(s, k1)
    requires KeyFits(AfterKey(s, k1, false, shift).0, k2) && k2.BackspaceKey?
    ensures var t := AfterKey(AfterKey(s, k1, false, shift).0, k2, false, shift).0;
      t.oldState == Some(Snap(s)) && t.lastEdit == DeleteEdit
  {
    BackspaceSnapshot(s, k1, shift);
    BackspaceSnapshot(AfterKey(s, k1, false, shift).0, k2, shift);
  }

  /** Backspace records a deletion, and takes a snapshot only when the last
      edit was not one. */
  lemma BackspaceSnapshot(s: BoxState, k: Key, shift: bool)
    requires ValidState(s) && s.editable && k.BackspaceKey? && KeyFits(s, k)
    ensures var t := AfterKey(s, k, false, shift).0;
      t.lastEdit == DeleteEdit && t.oldState == (if s.lastEdit != DeleteEdit then Some(Snap(s)) else s.oldState)
  {
    var (s1, a, _, sh) := KeyAction(s, k, false, shift);
    assert s1 == s && a.ActDelete?;
  }

  /** Select All selects the whole text with the cursor at its end. */
  lemma SelectAllSelects(s: BoxState, ctrl: bool, shift: bool)
    requires ValidState(s) && s.editable
    ensures var (t, a, _) := AfterKey(s, SelectAll, ctrl, shift);
      a == Nothing && t.text == s.text && Lo(t) == 0 && Hi(t) == |s.text| && t.editPos == |s.text|
  {
  }

  /** Escape empties a selection, and is left to others without one. */
  lemma EscapeDeselects(s: BoxState, ctrl: bool, shift: bool)
    requires ValidState(s) && s.editable
    ensures var (t, a, _) := AfterKey(s, Escape, ctrl, shift);
      (s.editPos != s.selPos ==> a == Nothing && t == s.(selPos := s.editPos)) &&
      (s.editPos == s.selPos ==> a == Unhandled && t == s)
  {
  }

  /** Return activates a multi-line box with Ctrl, breaks the line in one
      without, and is left to others in a single-line box. */
  lemma ReturnByMode(s: BoxState, ctrl: bool, shift: bool)
    requires ValidState(s) && s.editable
    ensures var (t, a, _) := AfterKey(s, Return, ctrl, shift);
      (s.multiLine && ctrl ==> a == Activate && t == s) &&
      (s.multiLine && !ctrl ==> a == Edit && t.text == Replaced(s.text, Lo(s), Hi(s), "\n")) &&
      (!s.multiLine ==> a == Unhandled && t == s)
  {
  }

  /** Cut puts the selection on the clipboard and removes it; Copy only
      puts it there. */
  lemma CutAndCopy(s: BoxState, ctrl: bool, shift: bool)
    requires ValidState(s) && s.editable && Lo(s) < Hi(s)
    ensures AfterKey(s, Cut, ctrl, shift).2 == Some(s.text[Lo(s)..Hi(s)])
    ensures AfterKey(s, Copy, ctrl, shift) == (s, Nothing, Some(s.text[Lo(s)..Hi(s)]))
  {
  }

  // ---------------------------------------------------------------------
  // Scrolling
  // ---------------------------------------------------------------------

  /** An offset in pixels. */
  datatype Coord = Coord(x: int, y: int)

  /** A size in fractional pixels. */
  datatype Vec2 = Vec2(x: real, y: real)

  function Ceil(r: real): int
  {
    -((-r).Floor)
  }

  function Max0(v: int): nat
  {
    if v < 0 then 0 else v
  }

  /** How far the view can scroll: the text's required size beyond the
      bounds, rounded up, cast to `i32` (saturating) and never below zero. */
  function MaxOffset(required: Vec2, bounds: Vec2): (r: Coord)
    ensures 0 <= r.x <= I32_MAX && 0 <= r.y <= I32_MAX
    ensures 0.0 <= required.x - bounds.x <= I32_MAX as real ==> r.x == Ceil(required.x - bounds.x)
    ensures 0.0 <= required.y - bounds.y <= I32_MAX as real ==> r.y == Ceil(required.y - bounds.y)
  {
    Coord(Max0(AsI32(Ceil(required.x - bounds.x) as real)), Max0(AsI32(Ceil(required.y - bounds.y) as real)))
  }

  function ClampAxis(v: int, hi: int): (r: int)
    requires hi >= 0
    ensures 0 <= r <= hi
    ensures 0 <= v <= hi ==> r == v
    ensures v < 0 ==> r == 0
    ensures v > hi ==> r == hi
  {
    var m := if v < hi then v else hi;
    if m < 0 then 0 else m
  }

  /** The view offset after panning by `delta`. */
  function PanOffset(view: Coord, delta: Coord, maxOffset: Coord): (r: Coord)
    requires maxOffset.x >= 0 && maxOffset.y >= 0
    ensures 0 <= r.x <= maxOffset.x && 0 <= r.y <= maxOffset.y
    ensures 0 <= view.x - delta.x <= maxOffset.x && 0 <= view.y - delta.y <= maxOffset.y ==>
      r == Coord(view.x - delta.x, view.y - delta.y)
  {
    Coord(ClampAxis(view.x - delta.x, maxOffset.x), ClampAxis(view.y - delta.y, maxOffset.y))
  }

  /** Panning by nothing keeps an offset in range, and pulls one out of
      range back to the nearest edge. */
  lemma PanByNothing(view: Coord, maxOffset: Coord)
    requires maxOffset.x >= 0 && maxOffset.y >= 0
    ensures 0 <= view.x <= maxOffset.x && 0 <= view.y <= maxOffset.y ==> PanOffset(view, Coord(0, 0), maxOffset) == view
    ensures PanOffset(PanOffset(view, Coord(0, 0), maxOffset), Coord(0, 0), maxOffset) == PanOffset(view, Coord(0, 0), maxOffset)
  {
  }

  // ---------------------------------------------------------------------
  // Touch phases
  // ---------------------------------------------------------------------

  /** Where a press comes from: a touch with its id, or a mouse with its
      click count. */
  datatype PressSource = Touch(id: nat) | Mouse(repeats: nat)

  /** The phase of a touch press: none, just started (until the timer or a
      move), panning, or placing the cursor. */
  datatype TouchPhase = NoTouch | Start(id: nat, coord: Coord) | Pan(id: nat) | Cursor(id: nat)

  /** A touch press starts a phase when none is under way. */
  function PhaseOnPressStart(phase: TouchPhase, source: PressSource, coord: Coord): TouchPhase
  {
    if source.Touch? && phase.NoTouch? then Start(source.id, coord) else phase
  }

  /** A move: the started touch that moves begins to pan; a panning touch
      keeps panning; the cursor-placing touch pans with Ctrl; a mouse pans
      with Ctrl. The second component says whether the view pans. */
  function PhaseOnPressMove(phase: TouchPhase, source: PressSource, ctrl: bool): (TouchPhase, bool)
  {
    match source
    case Mouse(_) => (phase, ctrl)
    case Touch(tid) =>
      if phase.Start? && phase.id == tid then (Pan(phase.id), true)
      else if phase.Pan? && phase.id == tid then (phase, true)
      else if phase.Cursor? && phase.id == tid then (phase, ctrl)
      else (phase, false)
  }

  /** The end of the press that owns the phase ends it. */
  function PhaseOnPressEnd(phase: TouchPhase, source: PressSource): TouchPhase
  {
    if !phase.NoTouch? && source == Touch(phase.id) then NoTouch else phase
  }

  /** The timer turns a started touch into cursor placing. */
  function PhaseOnTimer(phase: TouchPhase): TouchPhase
  {
    if phase.Start? then Cursor(phase.id) else phase
  }

  /** Only a touch press with no phase under way starts one. */
  lemma OnlyTouchPressStarts(phase: TouchPhase, source: PressSource, coord: Coord, ctrl: bool)
    ensures PhaseOnPressStart(phase, source, coord).Start? && !phase.Start? ==>
      phase.NoTouch? && source.Touch? && PhaseOnPressStart(phase, source, coord) == Start(source.id, coord)
    ensures PhaseOnPressMove(phase, source, ctrl).0.Start? ==> PhaseOnPressMove(phase, source, ctrl).0 == phase
    ensures PhaseOnPressEnd(phase, source).Start? ==> PhaseOnPressEnd(phase, source) == phase
    ensures !PhaseOnTimer(phase).Start?
  {
  }

  /** A started touch that moves pans; a move of another touch changes
      nothing and does not pan. */
  lemma StartedMovePans(id: nat, coord: Coord, other: nat, ctrl: bool)
    requires other != id
    ensures PhaseOnPressMove(Start(id, coord), Touch(id), ctrl) == (Pan(id), true)
    ensures PhaseOnPressMove(Start(id, coord), Touch(other), ctrl) == (Start(id, coord), false)
  {
  }

  /** The timer turns a started touch into cursor placing, and the end of
      the owning press ends any phase; another press's end does not. */
  lemma TimerAndEnd(phase: TouchPhase, other: nat)
    requires !phase.NoTouch? && other != phase.id
    ensures phase.Start? ==> PhaseOnTimer(phase) == Cursor(phase.id)
    ensures PhaseOnPressEnd(phase, Touch(phase.id)) == NoTouch
    ensures PhaseOnPressEnd(phase, Touch(other)) == phase
  {
  }

  // ---------------------------------------------------------------------
  // The edit box
  // ---------------------------------------------------------------------

  class EditBox {
    var text: string
    var editPos: nat
    var selPos: nat
    var oldState: Option<Snapshot>
    var lastEdit: LastEdit
    var editXCoord: Option<real>
    var editable: bool
    var multiLine: bool
    var viewOffset: Coord
    var required: Vec2
    var bounds: Vec2
    var touchPhase: TouchPhase

    /** A box holding `s`, with the cursor at its end, editable and single
        line. */
    constructor (s: string)
      ensures State() == BoxState(s, |s|, |s|, None, NoEdit, None, true, false) && Valid()
      ensures viewOffset == Coord(0, 0) && touchPhase == NoTouch
    {
      text, editPos, selPos := s, |s|, |s|;
      oldState, lastEdit, editXCoord := None, NoEdit, None;
      editable, multiLine := true, false;
      viewOffset, required, bounds := Coord(0, 0), Vec2(0.0, 0.0), Vec2(0.0, 0.0);
      touchPhase := NoTouch;
    }

    function State(): BoxState
      reads this
    {
      BoxState(text, editPos, selPos, oldState, lastEdit, editXCoord, editable, multiLine)
    }

    predicate Valid()
      reads this
    {
      ValidState(State())
    }

    /** Takes a snapshot when `take` holds and records the edit kind. */
    method TakeSnapshot(take: bool, kind: LastEdit)
      modifies this`oldState, this`lastEdit
      ensures State() == Snapshotted(old(State()), take, kind)
    {
      if take {
        oldState := Some(Snapshot(text, editPos, selPos));
        lastEdit := kind;
      }
    }

    /** A typed character. */
    method ReceivedChar(c: char) returns (a: EditAction)
      requires Valid()
      modifies this`text, this`editPos, this`selPos, this`oldState, this`lastEdit, this`editXCoord
      ensures (State(), a) == AfterChar(old(State()), c) && Valid()
    {
      if !editable {
        return Unhandled;
      }
      var pos := editPos;
      var lo := if editPos <= selPos then editPos else selPos;
      var hi := if editPos <= selPos then selPos else editPos;
      var haveSel := lo < hi;
      TakeSnapshot(lastEdit != InsertEdit || haveSel, InsertEdit);
      if haveSel {
        text := text[..lo] + [c] + text[hi..];
        editPos, selPos := lo + 1, lo + 1;
      } else {
        text := text[..pos] + [c] + text[pos..];
        editPos, selPos := pos + 1, pos + 1;
      }
      editXCoord := None;
      a := Edit;
    }

    /** The length of a paste into this box. */
    method PasteEnd(content: string) returns (end: nat)
      ensures end == if multiLine then |content| else FirstControl(content)
    {
      end := |content|;
      if !multiLine {
        var i := 0;
        while i < |content|
          invariant i <= |content|
          invariant FirstControl(content) == i + FirstControl(content[i..])
          decreases |content| - i
        {
          assert content[i..][1..] == content[i + 1..];
          if IsControl(content[i]) {
            end := i;
            return;
          }
          i := i + 1;
        }
        assert content[i..] == [];
      }
    }

    /** Undo and Redo: swaps the text and positions with the snapshot. */
    method SwapWithSnapshot()
      requires Valid()
      modifies this`text, this`editPos, this`selPos, this`oldState, this`lastEdit, this`editXCoord
      ensures State() == Swapped(old(State()))
    {
      if oldState.Some? {
        var o := oldState.value;
        var current := Snapshot(text, editPos, selPos);
        text := o.text;
        editPos := o.editPos;
        selPos := o.selPos;
        oldState := Some(current);
        editXCoord := None;
        lastEdit := NoEdit;
      }
    }

    /** A key's own effects and the action it asks for. */
    method KeyStep(key: Key, ctrl: bool, shift: bool) returns (action: Action, clipboard: Option<string>, extend: bool)
      requires Valid() && KeyFits(State(), key)
      modifies this`text, this`editPos, this`selPos, this`oldState, this`lastEdit, this`editXCoord
      ensures (State(), action, clipboard, extend) == KeyAction(old(State()), key, ctrl, shift)
    {
      var pos := editPos;
      var lo := if editPos <= selPos then editPos else selPos;
      var hi := if editPos <= selPos then selPos else editPos;
      var haveSel := hi > lo;
      clipboard, extend := None, shift;
      match key {
        case Escape =>
          if editPos != selPos {
            selPos := editPos;
            action := ActNone;
          } else {
            action := ActUnhandled;
          }
        case Return =>
          if ctrl && multiLine {
            action := ActActivate;
          } else if multiLine {
            action := ActInsert("\n", InsertEdit);
          } else {
            action := ActUnhandled;
          }
        case Tab => action := ActInsert("\t", InsertEdit);
        case Home(lineStart) => action := ActMove(if ctrl then 0 else lineStart, None);
        case End(lineEnd) => action := ActMove(if ctrl then |text| else lineEnd, None);
        case Navigate(target, x) => action := if target.Some? then ActMove(target.value, x) else ActNone;
        case DeleteKey(next) =>
          if haveSel {
            action := ActDelete(lo, hi);
          } else if next.Some? {
            action := ActDelete(pos, next.value);
          } else {
            action := ActNone;
          }
        case BackspaceKey(wordStart) =>
          if haveSel {
            action := ActDelete(lo, hi);
          } else if ctrl {
            action := ActDelete(wordStart, pos);
          } else {
            var prev := if pos == 0 then 0 else pos - 1;
            action := ActDelete(prev, pos);
          }
        case Deselect =>
          selPos := pos;
          action := ActNone;
        case SelectAll =>
          selPos := 0;
          extend := true;
          action := ActMove(|text|, None);
        case Cut =>
          if haveSel {
            clipboard := Some(text[lo..hi]);
            action := ActDelete(lo, hi);
          } else {
            action := ActUnhandled;
          }
        case Copy =>
          if haveSel {
            clipboard := Some(text[lo..hi]);
            action := ActNone;
          } else {
            action := ActUnhandled;
          }
        case PasteKey(content) =>
          if content.Some? {
            var end := PasteEnd(content.value);
            assert content.value[..|content.value|] == content.value;
            action := ActInsert(content.value[..end], PasteEdit);
          } else {
            action := ActNone;
          }
        case Undo =>
          SwapWithSnapshot();
          action := ActEdit;
        case Redo =>
          SwapWithSnapshot();
          action := ActEdit;
        case OtherKey => action := ActUnhandled;
      }
    }

    /** Carries out an action. */
    method Apply(action: Action, extend: bool) returns (a: EditAction)
      requires Valid() && ActionFits(State(), action)
      modifies this`text, this`editPos, this`selPos, this`oldState, this`lastEdit, this`editXCoord
      ensures (State(), a) == ApplyAction(old(State()), action, extend)
    {
      match action {
        case ActNone => a := Nothing;
        case ActUnhandled => a := Unhandled;
        case ActActivate => a := Activate;
        case ActEdit => a := Edit;
        case ActInsert(t, kind) =>
          var pos := editPos;
          var lo := if editPos <= selPos then editPos else selPos;
          var hi := if editPos <= selPos then selPos else editPos;
          if lo < hi {
            TakeSnapshot(true, kind);
            text := text[..lo] + t + text[hi..];
            pos := lo;
          } else {
            TakeSnapshot(lastEdit != kind, kind);
            text := text[..pos] + t + text[pos..];
          }
          editPos, selPos := pos + |t|, pos + |t|;
          editXCoord := None;
          a := Edit;
        case ActDelete(lo, hi) =>
          assert Replaced(text, lo, hi, "") == text[..lo] + text[hi..];
          TakeSnapshot(lastEdit != DeleteEdit, DeleteEdit);
          text := text[..lo] + text[hi..];
          editPos, selPos := lo, lo;
          editXCoord := None;
          a := Edit;
        case ActMove(p, x) =>
          editPos := p;
          if !extend {
            selPos := p;
          }
          editXCoord := x;
          a := Nothing;
      }
    }

    /** A control key; `clipboard` is what it puts on the clipboard. */
    method ControlKey(key: Key, ctrl: bool, shift: bool) returns (a: EditAction, clipboard: Option<string>)
      requires Valid() && KeyFits(State(), key)
      modifies this`text, this`editPos, this`selPos, this`oldState, this`lastEdit, this`editXCoord
      ensures (State(), a, clipboard) == AfterKey(old(State()), key, ctrl, shift) && Valid()
    {
      if !editable {
        return Unhandled, None;
      }
      var action, extend;
      action, clipboard, extend := KeyStep(key, ctrl, shift);
      a := Apply(action, extend);
    }

    /** Pans the view by `delta`, within what the text's size allows, and
        says whether the view moved. */
    method PanDelta(delta: Coord) returns (changed: bool)
      modifies this`viewOffset
      ensures viewOffset == PanOffset(old(viewOffset), delta, MaxOffset(required, bounds))
      ensures changed <==> viewOffset != old(viewOffset)
    {
      var maxOffset := MaxOffset(required, bounds);
      var newOffset := PanOffset(viewOffset, delta, maxOffset);
      if newOffset != viewOffset {
        viewOffset := newOffset;
        changed := true;
      } else {
        changed := false;
      }
    }

    /** Places the cursor at `nearest`, the text position nearest to a
        press, and empties the selection unless Shift is held; with Ctrl
        nothing moves. */
    method PlaceCursor(nearest: nat, ctrl: bool, shift: bool)
      requires nearest <= |text| && Valid()
      modifies this`editPos, this`selPos, this`editXCoord
      ensures !ctrl ==> editPos == nearest && selPos == (if shift then old(selPos) else nearest) && editXCoord.None?
      ensures ctrl ==> editPos == old(editPos) && selPos == old(selPos) && editXCoord == old(editXCoord)
      ensures Valid()
    {
      if !ctrl {
        editPos := nearest;
        editXCoord := None;
        if !shift {
          selPos := editPos;
        }
      }
    }

    /** A touch press: starts a phase when none is under way. */
    method PressStartTouch(id: nat, coord: Coord)
      modifies this`touchPhase
      ensures touchPhase == PhaseOnPressStart(old(touchPhase), Touch(id), coord)
    {
      if touchPhase == NoTouch {
        touchPhase := Start(id, coord);
      }
    }

    /** A move of a press: pans the view, or places the cursor at
        `nearest`, the position nearest to the press. */
    method PressMove(source: PressSource, ctrl: bool, delta: Coord, nearest: nat) returns (pan: bool)
      requires nearest <= |text| && Valid()
      modifies this`touchPhase, this`viewOffset, this`editPos, this`editXCoord
      ensures (touchPhase, pan) == PhaseOnPressMove(old(touchPhase), source, ctrl)
      ensures pan ==> viewOffset == PanOffset(old(viewOffset), delta, MaxOffset(required, bounds)) &&
                      editPos == old(editPos) && editXCoord == old(editXCoord)
      ensures !pan ==> viewOffset == old(viewOffset) && editPos == nearest && editXCoord.None?
      ensures Valid()
    {
      pan := false;
      match source {
        case Touch(tid) =>
          match touchPhase {
            case Start(id, _) =>
              if id == tid {
                touchPhase := Pan(id);
                pan := true;
              }
            case Pan(id) => pan := id == tid;
            case Cursor(id) => pan := id == tid && ctrl;
            case NoTouch =>
          }
        case Mouse(_) => pan := ctrl;
      }
      if pan {
        var _ := PanDelta(delta);
      } else {
        editPos := nearest;
        editXCoord := None;
      }
    }

    /** The end of a press: a started touch places the cursor at `nearest`,
        the position nearest to where it started, unless Ctrl is held; the
        phase ends. Nothing else moves the cursor. */
    method PressEnd(source: PressSource, ctrl: bool, shift: bool, nearest: nat)
      requires nearest <= |text| && Valid()
      modifies this`touchPhase, this`editPos, this`selPos, this`editXCoord
      ensures touchPhase == PhaseOnPressEnd(old(touchPhase), source)
      ensures old(touchPhase).Start? && source == Touch(old(touchPhase).id) && !ctrl ==>
        editPos == nearest && selPos == (if shift then old(selPos) else nearest) && editXCoord.None?
      ensures !(old(touchPhase).Start? && source == Touch(old(touchPhase).id) && !ctrl) ==>
        editPos == old(editPos) && selPos == old(selPos) && editXCoord == old(editXCoord)
      ensures Valid()
    {
      match touchPhase {
        case Start(id, _) =>
          if source == Touch(id) {
            PlaceCursor(nearest, ctrl, shift);
            touchPhase := NoTouch;
          }
        case Pan(id) =>
          if source == Touch(id) {
            touchPhase := NoTouch;
          }
        case Cursor(id) =>
          if source == Touch(id) {
            touchPhase := NoTouch;
          }
        case NoTouch =>
      }
    }

    /** The touch timer: a started touch places the cursor at `nearest`, the
        position nearest to where it started, unless Ctrl is held, and goes
        on placing it. Nothing else moves the cursor. */
    method TimerUpdate(ctrl: bool, shift: bool, nearest: nat)
      requires nearest <= |text| && Valid()
      modifies this`touchPhase, this`editPos, this`selPos, this`editXCoord
      ensures touchPhase == PhaseOnTimer(old(touchPhase))
      ensures old(touchPhase).Start? && !ctrl ==>
        editPos == nearest && selPos == (if shift then old(selPos) else nearest) && editXCoord.None?
      ensures !(old(touchPhase).Start? && !ctrl) ==>
        editPos == old(editPos) && selPos == old(selPos) && editXCoord == old(editXCoord)
      ensures Valid()
    {
      if touchPhase.Start? {
        PlaceCursor(nearest, ctrl, shift);
        touchPhase := Cursor(touchPhase.id);
      }
    }
  }
}
