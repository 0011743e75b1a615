/** The text buffer the dispatcher edits (promkit's `text_editor`), modelled as
    a text and a cursor position. Position `|text|` is the tail: the cursor sits
    after the last character. */
module TextEditor {
  import Crossterm

  /** The configured edit mode (`text_editor::Mode`). */
  datatype Mode = Insert | Overwrite

  datatype TextBuffer = TextBuffer(text: seq<char>, position: nat)

  /** A buffer whose cursor lies inside the text or at its tail. */
  type Buffer = b: TextBuffer | b.position <= |b.text| witness TextBuffer([], 0)

  /** The prompt state (`text_editor::State`): the buffer, its display attributes,
      its edit mode and its word-break characters. History, masking and the line
      limit are not part of this model. */
  datatype State = State(
    texteditor: Buffer,
    prefix: string,
    prefixStyle: Crossterm.ContentStyle,
    activeCharStyle: Crossterm.ContentStyle,
    inactiveCharStyle: Crossterm.ContentStyle,
    editMode: Mode,
    wordBreakChars: set<char>)

  /** The buffer's text without the cursor: the part before the cursor followed
      by the part after it, whatever the cursor position. */
  function TextWithoutCursor(b: Buffer): (r: string)
    ensures r == b.text[..b.position] + b.text[b.position..]
  {
    b.text
  }

  /** Inserts `ch` at the cursor and moves the cursor past it. */
  function InsertChar(b: Buffer, ch: char): (r: Buffer)
    ensures |r.text| == |b.text| + 1
    ensures r.text[..b.position] == b.text[..b.position]
    ensures r.text[b.position] == ch
    ensures r.text[b.position + 1..] == b.text[b.position..]
    ensures r.position == b.position + 1
  {
    TextBuffer(b.text[..b.position] + [ch] + b.text[b.position..], b.position + 1)
  }

  /** Overwrites the character under the cursor with `ch` and moves past it; at
      the tail there is nothing to overwrite and `ch` is inserted. */
  function OverwriteChar(b: Buffer, ch: char): (r: Buffer)
    ensures b.position == |b.text| ==> r == InsertChar(b, ch)
    ensures b.position < |b.text| ==>
      && |r.text| == |b.text|
      && r.text[b.position] == ch
      && (forall i | 0 <= i < |b.text| && i != b.position :: r.text[i] == b.text[i])
      && r.position == b.position + 1
  {
    if b.position == |b.text| then InsertChar(b, ch)
    else TextBuffer(b.text[..b.position] + [ch] + b.text[b.position + 1..], b.position + 1)
  }

  /** Replaces the whole text by `s`; the cursor goes to the tail. */
  function Replace(b: Buffer, s: string): (r: Buffer)
    ensures TextWithoutCursor(r) == s
    ensures r.position == |s|
  {
    TextBuffer(s, |s|)
  }

  /** Moves the cursor one character left, unless it is at the head. */
  function Backward(b: Buffer): (r: Buffer)
    ensures r.text == b.text
    ensures b.position > 0 ==> r.position == b.position - 1
    ensures b.position == 0 ==> r == b
  {
    if b.position > 0 then b.(position := b.position - 1) else b
  }

  /** Moves the cursor one character right, unless it is at the tail. */
  function Forward(b: Buffer): (r: Buffer)
    ensures r.text == b.text
    ensures b.position < |b.text| ==> r.position == b.position + 1
    ensures b.position == |b.text| ==> r == b
  {
    if b.position < |b.text| then b.(position := b.position + 1) else b
  }

  function MoveToHead(b: Buffer): (r: Buffer)
    ensures r.text == b.text && r.position == 0
  {
    b.(position := 0)
  }

  function MoveToTail(b: Buffer): (r: Buffer)
    ensures r.text == b.text && r.position == |b.text|
  {
    b.(position := |b.text|)
  }

  /** Erases the character before the cursor (backspace); nothing at the head. */
  function Erase(b: Buffer): (r: Buffer)
    ensures b.position == 0 ==> r == b
    ensures b.position > 0 ==>
      && |r.text| == |b.text| - 1
      && r.position == b.position - 1
      && r.text[..r.position] == b.text[..r.position]
      && r.text[r.position..] == b.text[b.position..]
  {
    if b.position == 0 then b
    else TextBuffer(b.text[..b.position - 1] + b.text[b.position..], b.position - 1)
  }

  /** Empties the buffer. */
  function EraseAll(b: Buffer): (r: Buffer)
    ensures TextWithoutCursor(r) == [] && r.position == 0
  {
    TextBuffer([], 0)
  }

  /** The greatest `j <= from` at which a word starts: the head, or just after a
      word-break character. */
  function WordStartAtOrBefore(s: seq<char>, from: nat, breaks: set<char>): (j: nat)
    requires from <= |s|
    ensures j <= from
    ensures j == 0 || s[j - 1] in breaks
    ensures forall k | j <= k < from :: s[k] !in breaks
    decreases from
  {
    if from == 0 || s[from - 1] in breaks then from
    else WordStartAtOrBefore(s, from - 1, breaks)
  }

  /** The least `j >= from` holding a word-break character, or the tail. */
  function WordBreakAtOrAfter(s: seq<char>, from: nat, breaks: set<char>): (j: nat)
    requires from <= |s|
    ensures from <= j <= |s|
    ensures j == |s| || s[j] in breaks
    ensures forall k | from <= k < j :: s[k] !in breaks
    decreases |s| - from
  {
    if from == |s| || s[from] in breaks then from
    else WordBreakAtOrAfter(s, from + 1, breaks)
  }

  /** Where a "previous nearest" motion lands: the start of the word the cursor
      is in, or of the previous word when the cursor is already at a word start. */
  function PreviousNearest(b: Buffer, breaks: set<char>): (j: nat)
    ensures j <= b.position
    ensures b.position > 0 ==> j < b.position
  {
    if b.position == 0 then 0 else WordStartAtOrBefore(b.text, b.position - 1, breaks)
  }

  /** Where a "next nearest" motion lands: the next word-break character after
      the cursor, or the tail. */
  function NextNearest(b: Buffer, breaks: set<char>): (j: nat)
    ensures b.position <= j <= |b.text|
    ensures b.position < |b.text| ==> b.position < j
  {
    if b.position == |b.text| then |b.text| else WordBreakAtOrAfter(b.text, b.position + 1, breaks)
  }

  function MoveToPreviousNearest(b: Buffer, breaks: set<char>): (r: Buffer)
    ensures r.text == b.text
    ensures r.position <= b.position
    ensures forall k | r.position <= k < b.position - 1 :: b.text[k] !in breaks
  {
    b.(position := PreviousNearest(b, breaks))
  }

  function MoveToNextNearest(b: Buffer, breaks: set<char>): (r: Buffer)
    ensures r.text == b.text
    ensures b.position <= r.position
    ensures forall k | b.position < k < r.position :: b.text[k] !in breaks
  {
    b.(position := NextNearest(b, breaks))
  }

  /** Erases from the previous-nearest position up to the cursor. */
  function EraseToPreviousNearest(b: Buffer, breaks: set<char>): (r: Buffer)
    ensures r.position <= b.position
    ensures r.text == b.text[..r.position] + b.text[b.position..]
    ensures forall k | r.position <= k < b.position - 1 :: b.text[k] !in breaks
  {
    var j := PreviousNearest(b, breaks);
    TextBuffer(b.text[..j] + b.text[b.position..], j)
  }

  /** Erases from the cursor up to the next-nearest position. */
  function EraseToNextNearest(b: Buffer, breaks: set<char>): (r: Buffer)
    ensures r.position == b.position
    ensures exists j | b.position <= j <= |b.text| ::
      && r.text == b.text[..b.position] + b.text[j..]
      && forall k | b.position < k < j :: b.text[k] !in breaks
  {
    var j := NextNearest(b, breaks);
    TextBuffer(b.text[..b.position] + b.text[j..], b.position)
  }

  /** Erase undoes Insert: backspace after typing a character restores the buffer. */
  lemma EraseUndoesInsert(b: Buffer, ch: char)
    ensures Erase(InsertChar(b, ch)) == b
  {
  }

  /** Typing in Insert mode lengthens the text by one and keeps what precedes
      the cursor; in Overwrite mode away from the tail it keeps the length. */
  lemma InsertAndOverwriteLengths(b: Buffer, ch: char)
    ensures |InsertChar(b, ch).text| == |b.text| + 1
    ensures forall i | 0 <= i < b.position :: InsertChar(b, ch).text[i] == b.text[i]
    ensures b.position < |b.text| ==> |OverwriteChar(b, ch).text| == |b.text|
  {
  }

  /** Forward and Backward undo each other away from the ends. */
  lemma ForwardUndoesBackward(b: Buffer)
    ensures b.position > 0 ==> Forward(Backward(b)) == b
    ensures b.position < |b.text| ==> Backward(Forward(b)) == b
  {
  }

  /** With no word-break characters (the configured default) the word motions
      reach the head and the tail. */
  lemma NoBreaksReachEnds(b: Buffer)
    ensures MoveToPreviousNearest(b, {}) == MoveToHead(b)
    ensures MoveToNextNearest(b, {}) == MoveToTail(b)
  {
  }
}
