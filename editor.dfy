/** The keystroke dispatcher of the query editor. An `Editor` is in one of two
    modes, editing or navigating suggestions, and turns one terminal event at a
    time into changes of its text buffer, of its guide message and of its
    incremental-search session.

    The methods of class `Editor` do this in place; each is proved against a
    step function on `EditorState` (the part of the editor that events change),
    and the properties of the dispatcher are lemmas about those functions. */
module Editor {
  import opened Wrappers
  import opened Crossterm
  import TextEditor
  import IncrementalSearch
  import Format

  /** Prompt prefix and character styles applied to the buffer on focus or defocus. */
  datatype EditorTheme = EditorTheme(
    prefix: string,
    prefixStyle: ContentStyle,
    activeCharStyle: ContentStyle,
    inactiveCharStyle: ContentStyle)

  /** The configurable key bindings; nothing requires two of them to differ. */
  datatype Keybinds = Keybinds(
    moveToTail: KeyEvent,
    backward: KeyEvent,
    forward: KeyEvent,
    completion: KeyEvent,
    moveToHead: KeyEvent,
    moveToPreviousNearest: KeyEvent,
    moveToNextNearest: KeyEvent,
    erase: KeyEvent,
    eraseAll: KeyEvent,
    eraseToPreviousNearest: KeyEvent,
    eraseToNextNearest: KeyEvent,
    searchUp: KeyEvent)

  /** The one-line guide message and its style. */
  datatype Guide = Guide(text: string, style: ContentStyle)

  /** Which handler `operate` runs: `edit` or `search`. */
  datatype Keybind = EditorKeybind | SearcherKeybind

  /** What events change in an editor: the current handler, the prompt state,
      the guide and the searcher. */
  datatype EditorState = EditorState(
    keybind: Keybind,
    state: TextEditor.State,
    guide: Guide,
    searcher: IncrementalSearch.Searcher)

  /** Suggestion navigation only ever runs over an open session. */
  predicate Inv(s: EditorState)
  {
    s.keybind == SearcherKeybind ==> IncrementalSearch.Active(s.searcher)
  }

  // ---------------------------------------------------------------------------
  // Resolving an event in edit mode

  /** The logical action an event stands for in edit mode. */
  datatype EditAction =
    | Complete
    | Backward | Forward | MoveToHead | MoveToTail | MoveToPreviousNearest | MoveToNextNearest
    | Erase | EraseAll | EraseToPreviousNearest | EraseToNextNearest
    | InputChar(ch: char)
    | Ignore

  datatype Binding = Binding(key: KeyEvent, action: EditAction)

  /** The bindings in the order edit mode tests them. */
  function Table(kb: Keybinds): seq<Binding>
  {
    [ Binding(kb.completion, Complete),
      Binding(kb.backward, Backward),
      Binding(kb.forward, Forward),
      Binding(kb.moveToHead, MoveToHead),
      Binding(kb.moveToTail, MoveToTail),
      Binding(kb.moveToPreviousNearest, MoveToPreviousNearest),
      Binding(kb.moveToNextNearest, MoveToNextNearest),
      Binding(kb.erase, Erase),
      Binding(kb.eraseAll, EraseAll),
      Binding(kb.eraseToPreviousNearest, EraseToPreviousNearest),
      Binding(kb.eraseToNextNearest, EraseToNextNearest) ]
  }

  /** The action of the first binding at or after `i` whose key is the event. */
  function MatchFrom(t: seq<Binding>, e: Event, i: nat): Option<EditAction>
    requires i <= |t|
    decreases |t| - i
  {
    if i == |t| then None
    else if e == Key(t[i].key) then Some(t[i].action)
    else MatchFrom(t, e, i + 1)
  }

  /** A printable character typed with no modifier or with Shift alone, and no
      key-event state flag. */
  function LiteralChar(e: Event): Option<char>
  {
    match e
    case Key(KeyEvent(Char(ch), modifiers, Press, state)) =>
      if (modifiers == NoModifiers || modifiers == ShiftModifier) && state == NoState then Some(ch) else None
    case _ => None
  }

  /** The first matching binding wins; failing all, a literal character is typed;
      failing that, the event is ignored. */
  function ResolveEdit(kb: Keybinds, e: Event): (r: EditAction)
    ensures r.InputChar? ==> LiteralChar(e) == Some(r.ch)
    ensures r.Ignore? ==> LiteralChar(e).None?
    ensures r.InputChar? || r.Ignore? <==> forall j | 0 <= j < |Table(kb)| :: e != Key(Table(kb)[j].key)
  {
    MatchFromNone(Table(kb), e, 0);
    match MatchFrom(Table(kb), e, 0)
    case Some(a) => MatchFromIsFirst(Table(kb), e, 0); a
    case None => (match LiteralChar(e) case Some(ch) => InputChar(ch) case None => Ignore)
  }

  lemma {:induction false} MatchFromFinds(t: seq<Binding>, e: Event, i: nat, k: nat)
    requires i <= k < |t|
    requires e == Key(t[k].key)
    requires forall j | i <= j < k :: e != Key(t[j].key)
    ensures MatchFrom(t, e, i) == Some(t[k].action)
    decreases k - i
  {
    if i < k {
      MatchFromFinds(t, e, i + 1, k);
    }
  }

  lemma {:induction false} MatchFromNone(t: seq<Binding>, e: Event, i: nat)
    requires i <= |t|
    ensures MatchFrom(t, e, i) == None <==> forall j | i <= j < |t| :: e != Key(t[j].key)
    decreases |t| - i
  {
    if i < |t| {
      MatchFromNone(t, e, i + 1);
    }
  }

  lemma {:induction false} MatchFromIsFirst(t: seq<Binding>, e: Event, i: nat)
    requires i <= |t|
    requires MatchFrom(t, e, i).Some?
    ensures exists k | i <= k < |t| ::
      && e == Key(t[k].key)
      && t[k].action == MatchFrom(t, e, i).value
      && forall j | i <= j < k :: e != Key(t[j].key)
    decreases |t| - i
  {
    if e != Key(t[i].key) {
      MatchFromIsFirst(t, e, i + 1);
    }
  }

  /** First match wins: an event equal to binding `k` and to no earlier binding
      runs binding `k`'s action, whatever later bindings it also equals. */
  lemma FirstBindingWins(kb: Keybinds, e: Event, k: nat)
    requires k < |Table(kb)|
    requires e == Key(Table(kb)[k].key)
    requires forall j | 0 <= j < k :: e != Key(Table(kb)[j].key)
    ensures ResolveEdit(kb, e) == Table(kb)[k].action
  {
    MatchFromFinds(Table(kb), e, 0, k);
  }

  /** Conversely, a bound action is only ever chosen by the first binding the event equals. */
  lemma ResolvedActionIsFirstMatch(kb: Keybinds, e: Event)
    requires !ResolveEdit(kb, e).InputChar? && !ResolveEdit(kb, e).Ignore?
    ensures exists k | 0 <= k < |Table(kb)| ::
      && e == Key(Table(kb)[k].key)
      && Table(kb)[k].action == ResolveEdit(kb, e)
      && forall j | 0 <= j < k :: e != Key(Table(kb)[j].key)
  {
    MatchFromIsFirst(Table(kb), e, 0);
  }

  /** An event equal to no binding is typed when it is a literal character and
      ignored otherwise. */
  lemma UnboundFallsThrough(kb: Keybinds, e: Event)
    requires forall j | 0 <= j < |Table(kb)| :: e != Key(Table(kb)[j].key)
    ensures LiteralChar(e).Some? ==> ResolveEdit(kb, e) == InputChar(LiteralChar(e).value)
    ensures LiteralChar(e).None? ==> ResolveEdit(kb, e) == Ignore
  {
    MatchFromNone(Table(kb), e, 0);
  }

  /** Only a pressed character with modifiers exactly NONE or exactly SHIFT and
      no state flag is literal input; Control, Alt and any combination are not. */
  lemma LiteralCharShape(e: Event, ch: char)
    ensures LiteralChar(e) == Some(ch) <==>
      && e.Key?
      && e.key.code == Char(ch)
      && e.key.kind == Press
      && e.key.state == NoState
      && (e.key.modifiers == NoModifiers || e.key.modifiers == ShiftModifier)
  {
  }

  // ---------------------------------------------------------------------------
  // Guide messages

  function LoadedMessage(ls: IncrementalSearch.LoadState): string
  {
    if ls.loaded then "Loaded all (" + Format.NatToString(ls.loadedItemLen) + ") suggestions"
    else "Loaded partially (" + Format.NatToString(ls.loadedItemLen) + ") suggestions"
  }

  function NoSuggestionMessage(prefix: string): string
  {
    "No suggestion found for '" + prefix + "'"
  }

  function LookupFailedMessage(error: string): string
  {
    "Failed to lookup suggestions: " + error
  }

  /** The load summaries read as in the examples: seven of all, three of some. */
  lemma LoadedMessageExamples()
    ensures LoadedMessage(IncrementalSearch.LoadState(true, 7)) == "Loaded all (7) suggestions"
    ensures LoadedMessage(IncrementalSearch.LoadState(false, 3)) == "Loaded partially (3) suggestions"
    ensures NoSuggestionMessage("") == "No suggestion found for ''"
  {
  }

  /** The count in a load summary is the numeral at a fixed offset, so the
      message determines the count and whether all were loaded. */
  lemma LoadedMessageDeterminesLoadState(ls: IncrementalSearch.LoadState)
    ensures var m := LoadedMessage(ls);
      var start := if ls.loaded then 12 else 18;
      var end := |m| - 13;
      && start <= end
      && (m[7] == 'a' <==> ls.loaded)
      && Format.IsDecimal(m[start..end])
      && Format.DecimalValue(m[start..end]) == ls.loadedItemLen
  {
    var digits := Format.NatToString(ls.loadedItemLen);
    var m := LoadedMessage(ls);
    var start := if ls.loaded then 12 else 18;
    assert m[start..|m| - 13] == digits;
    Format.DecimalRoundTrip(ls.loadedItemLen);
  }

  // ---------------------------------------------------------------------------
  // The step functions

  /** The new buffer for a buffer action; the completion and the no-op keep it. */
  function ApplyToBuffer(st: TextEditor.State, a: EditAction): TextEditor.Buffer
  {
    var b := st.texteditor;
    match a
    case Backward => TextEditor.Backward(b)
    case Forward => TextEditor.Forward(b)
    case MoveToHead => TextEditor.MoveToHead(b)
    case MoveToTail => TextEditor.MoveToTail(b)
    case MoveToPreviousNearest => TextEditor.MoveToPreviousNearest(b, st.wordBreakChars)
    case MoveToNextNearest => TextEditor.MoveToNextNearest(b, st.wordBreakChars)
    case Erase => TextEditor.Erase(b)
    case EraseAll => TextEditor.EraseAll(b)
    case EraseToPreviousNearest => TextEditor.EraseToPreviousNearest(b, st.wordBreakChars)
    case EraseToNextNearest => TextEditor.EraseToNextNearest(b, st.wordBreakChars)
    case InputChar(ch) =>
      if st.editMode.Insert? then TextEditor.InsertChar(b, ch) else TextEditor.OverwriteChar(b, ch)
    case _ => b
  }

  /** The completion: search for the buffer text, then report the outcome. */
  function Completion(s: EditorState): EditorState
  {
    var prefix := TextEditor.TextWithoutCursor(s.state.texteditor);
    var started := IncrementalSearch.StartSearch(s.searcher, prefix);
    var s' := s.(searcher := started.0);
    match started.1
    case Err(error) => s'.(guide := Guide(LookupFailedMessage(error), Foreground(Yellow)))
    case Ok(result) =>
      match result.headItem
      case None => s'.(guide := Guide(NoSuggestionMessage(prefix), Foreground(Yellow)))
      case Some(head) =>
        s'.(guide := Guide(LoadedMessage(result.loadState), Foreground(Green)),
            state := s.state.(texteditor := TextEditor.Replace(s.state.texteditor, head)),
            keybind := SearcherKeybind)
  }

  /** Edit mode: clear the guide text, then run the one resolved action. */
  function EditStep(kb: Keybinds, s: EditorState, e: Event): EditorState
  {
    var cleared := s.(guide := s.guide.(text := ""));
    var a := ResolveEdit(kb, e);
    if a.Complete? then Completion(cleared)
    else cleared.(state := cleared.state.(texteditor := ApplyToBuffer(cleared.state, a)))
  }

  /** Plain Tab or plain Down, pressed. */
  predicate IsSearchDown(e: Event)
  {
    e == Key(KeyEvent(Tab, NoModifiers, Press, NoState)) || e == Key(KeyEvent(Down, NoModifiers, Press, NoState))
  }

  /** Suggestion navigation: step down or up and show the candidate; any other
      event leaves the search and is handled by edit mode. */
  function SearchStep(kb: Keybinds, s: EditorState, e: Event): EditorState
  {
    if IsSearchDown(e) then
      var next := IncrementalSearch.DownWithLoad(s.searcher);
      s.(searcher := next,
         state := s.state.(texteditor := TextEditor.Replace(s.state.texteditor, IncrementalSearch.CurrentItem(next))))
    else if e == Key(kb.searchUp) then
      var previous := IncrementalSearch.Up(s.searcher);
      s.(searcher := previous,
         state := s.state.(texteditor := TextEditor.Replace(s.state.texteditor, IncrementalSearch.CurrentItem(previous))))
    else
      EditStep(kb, s.(keybind := EditorKeybind, searcher := IncrementalSearch.LeaveSearch(s.searcher)), e)
  }

  /** `operate`: run the handler of the current mode. */
  function OperateStep(kb: Keybinds, s: EditorState, e: Event): EditorState
  {
    match s.keybind
    case EditorKeybind => EditStep(kb, s, e)
    case SearcherKeybind => SearchStep(kb, s, e)
  }

  /** The host loop: one `operate` per event, in order. */
  function Run(kb: Keybinds, s: EditorState, events: seq<Event>): EditorState
    decreases |events|
  {
    if events == [] then s else Run(kb, OperateStep(kb, s, events[0]), events[1..])
  }

  /** Copies a theme onto the prompt's display attributes. */
  function ApplyTheme(st: TextEditor.State, t: EditorTheme): TextEditor.State
  {
    st.(prefix := t.prefix,
        prefixStyle := t.prefixStyle,
        inactiveCharStyle := t.inactiveCharStyle,
        activeCharStyle := t.activeCharStyle)
  }

  /** The prompt's display attributes, read back as a theme. */
  function ThemeOf(st: TextEditor.State): EditorTheme
  {
    EditorTheme(st.prefix, st.prefixStyle, st.activeCharStyle, st.inactiveCharStyle)
  }

  function FocusStep(t: EditorTheme, s: EditorState): EditorState
  {
    s.(state := ApplyTheme(s.state, t))
  }

  function DefocusStep(t: EditorTheme, s: EditorState): EditorState
  {
    EditorState(EditorKeybind, ApplyTheme(s.state, t), s.guide.(text := ""),
                IncrementalSearch.LeaveSearch(s.searcher))
  }

  // ---------------------------------------------------------------------------
  // Properties of edit mode

  /** Every edit dispatch clears the guide text; only the completion sets it
      again, and only the completion can change the mode or the searcher. */
  lemma EditClearsGuide(kb: Keybinds, s: EditorState, e: Event)
    ensures !ResolveEdit(kb, e).Complete? ==>
      && EditStep(kb, s, e).guide == s.guide.(text := "")
      && EditStep(kb, s, e).keybind == s.keybind
      && EditStep(kb, s, e).searcher == s.searcher
    ensures ResolveEdit(kb, e).Complete? ==> EditStep(kb, s, e).guide.text != ""
  {
  }

  /** An event bound to nothing that is not a literal character changes nothing
      but the guide text, which it empties. */
  lemma UnboundEventIsNoOp(kb: Keybinds, s: EditorState, e: Event)
    requires forall j | 0 <= j < |Table(kb)| :: e != Key(Table(kb)[j].key)
    requires !(e.Key? && e.key.code.Char? && e.key.kind == Press && e.key.state == NoState
               && (e.key.modifiers == NoModifiers || e.key.modifiers == ShiftModifier))
    ensures EditStep(kb, s, e) == s.(guide := s.guide.(text := ""))
  {
    UnboundFallsThrough(kb, e);
  }

  /** A literal character is inserted in Insert mode and overwrites in Overwrite
      mode; nothing else changes but the guide text. */
  lemma LiteralCharIsTyped(kb: Keybinds, s: EditorState, ch: char, modifiers: KeyModifiers)
    requires modifiers == NoModifiers || modifiers == ShiftModifier
    requires var e := Key(KeyEvent(Char(ch), modifiers, Press, NoState));
      forall j | 0 <= j < |Table(kb)| :: e != Key(Table(kb)[j].key)
    ensures var r := EditStep(kb, s, Key(KeyEvent(Char(ch), modifiers, Press, NoState)));
      var b := s.state.texteditor;
      && r.state.texteditor == (if s.state.editMode.Insert? then TextEditor.InsertChar(b, ch) else TextEditor.OverwriteChar(b, ch))
      && r == s.(guide := s.guide.(text := ""), state := s.state.(texteditor := r.state.texteditor))
  {
    UnboundFallsThrough(kb, Key(KeyEvent(Char(ch), modifiers, Press, NoState)));
  }

  /** Two equal bindings do not both fire: with backward and forward bound to
      the same key, that key moves the cursor back once and no more. */
  lemma EqualBindingsRunOnce(kb: Keybinds, s: EditorState)
    requires kb.backward == kb.forward && kb.completion != kb.backward
    ensures EditStep(kb, s, Key(kb.forward)).state.texteditor == TextEditor.Backward(s.state.texteditor)
  {
    FirstBindingWins(kb, Key(kb.forward), 1);
  }

  /** The completion key, when the search fails: a warning, nothing else changes. */
  lemma CompletionLookupFails(kb: Keybinds, s: EditorState, error: string)
    requires IncrementalSearch.StartSearch(s.searcher, TextEditor.TextWithoutCursor(s.state.texteditor)).1 == Err(error)
    ensures var r := EditStep(kb, s, Key(kb.completion));
      && r.guide == Guide("Failed to lookup suggestions: " + error, Foreground(Yellow))
      && r.state == s.state && r.keybind == s.keybind && r.searcher == s.searcher
  {
  }

  /** The completion key, when nothing matches the prefix: a warning naming the
      prefix; the buffer and the mode stay. */
  lemma CompletionFindsNothing(kb: Keybinds, s: EditorState, ls: IncrementalSearch.LoadState)
    requires var prefix := TextEditor.TextWithoutCursor(s.state.texteditor);
      IncrementalSearch.StartSearch(s.searcher, prefix).1 == Ok(IncrementalSearch.SearchResult(None, ls))
    ensures var r := EditStep(kb, s, Key(kb.completion));
      && r.guide == Guide("No suggestion found for '" + TextEditor.TextWithoutCursor(s.state.texteditor) + "'", Foreground(Yellow))
      && r.state == s.state && r.keybind == s.keybind
      && !IncrementalSearch.Active(r.searcher)
  {
  }

  /** The completion searches for the whole buffer text, wherever the cursor is:
      moving the cursor first changes neither the search, nor the guide, nor the
      mode, nor the buffer text, and once navigation starts not even the cursor. */
  lemma CompletionIgnoresCursor(kb: Keybinds, s: EditorState, p: nat)
    requires p <= |s.state.texteditor.text|
    ensures var moved := s.(state := s.state.(texteditor := TextEditor.TextBuffer(s.state.texteditor.text, p)));
      var r := EditStep(kb, s, Key(kb.completion));
      var r' := EditStep(kb, moved, Key(kb.completion));
      && r'.guide == r.guide
      && r'.searcher == r.searcher
      && r'.keybind == r.keybind
      && r'.state.texteditor.text == r.state.texteditor.text
      && (r.keybind != s.keybind ==> r'.state == r.state)
  {
  }

  /** The completion key, when a head candidate is found: the buffer holds it,
      navigation starts, and the guide summarises the load in green. */
  lemma CompletionFindsHead(kb: Keybinds, s: EditorState, head: string, ls: IncrementalSearch.LoadState)
    requires var prefix := TextEditor.TextWithoutCursor(s.state.texteditor);
      IncrementalSearch.StartSearch(s.searcher, prefix).1 == Ok(IncrementalSearch.SearchResult(Some(head), ls))
    ensures var r := EditStep(kb, s, Key(kb.completion));
      && TextEditor.TextWithoutCursor(r.state.texteditor) == head
      && r.state == s.state.(texteditor := r.state.texteditor)
      && r.keybind == SearcherKeybind
      && IncrementalSearch.CurrentItem(r.searcher) == head
      && r.guide.style == Foreground(Green)
      && r.guide.text == (if ls.loaded then "Loaded all (" + Format.NatToString(ls.loadedItemLen) + ") suggestions"
                          else "Loaded partially (" + Format.NatToString(ls.loadedItemLen) + ") suggestions")
  {
  }

  // ---------------------------------------------------------------------------
  // Properties of suggestion navigation

  /** Plain Tab or Down, matched before the up binding, steps down and shows the
      candidate; the mode and the guide stay. */
  lemma SearchStepsDown(kb: Keybinds, s: EditorState, e: Event)
    requires IsSearchDown(e)
    ensures var r := SearchStep(kb, s, e);
      && r.searcher == IncrementalSearch.DownWithLoad(s.searcher)
      && TextEditor.TextWithoutCursor(r.state.texteditor) == IncrementalSearch.CurrentItem(r.searcher)
      && r.keybind == s.keybind && r.guide == s.guide
  {
  }

  /** The up binding steps up and shows the candidate; the mode and the guide stay. */
  lemma SearchStepsUp(kb: Keybinds, s: EditorState)
    requires !IsSearchDown(Key(kb.searchUp))
    ensures var r := SearchStep(kb, s, Key(kb.searchUp));
      && r.searcher == IncrementalSearch.Up(s.searcher)
      && TextEditor.TextWithoutCursor(r.state.texteditor) == IncrementalSearch.CurrentItem(r.searcher)
      && r.keybind == s.keybind && r.guide == s.guide
  {
  }

  /** Any other event leaves the search, returns to edit mode and is then handled
      exactly as edit mode handles it: no event is lost at the mode boundary. */
  lemma SearchLeaveReplays(kb: Keybinds, s: EditorState, e: Event)
    requires !IsSearchDown(e) && e != Key(kb.searchUp)
    ensures var left := s.(keybind := EditorKeybind, searcher := IncrementalSearch.LeaveSearch(s.searcher));
      && SearchStep(kb, s, e) == EditStep(kb, left, e)
      && SearchStep(kb, s, e) == OperateStep(kb, left, e)
  {
  }

  // ---------------------------------------------------------------------------
  // Properties of focus and defocus

  /** A theme applied and read back is that theme; reading and re-applying the
      current one changes nothing. */
  lemma ThemeRoundTrip(st: TextEditor.State, t: EditorTheme)
    ensures ThemeOf(ApplyTheme(st, t)) == t
    ensures ApplyTheme(st, ThemeOf(st)) == st
  {
  }

  /** Focus sets the display attributes to the focus theme and touches nothing
      else, so focusing twice is focusing once. */
  lemma FocusOnlyRestyles(t: EditorTheme, s: EditorState)
    ensures var r := FocusStep(t, s);
      && ThemeOf(r.state) == t
      && r.state.texteditor == s.state.texteditor
      && r.state.editMode == s.state.editMode
      && r.state.wordBreakChars == s.state.wordBreakChars
      && r.keybind == s.keybind && r.guide == s.guide && r.searcher == s.searcher
    ensures FocusStep(t, FocusStep(t, s)) == FocusStep(t, s)
  {
  }

  /** Defocus applies the defocus theme, closes the search, returns to edit mode
      and empties the guide text but keeps its style and the buffer. */
  lemma DefocusResets(t: EditorTheme, s: EditorState)
    ensures var r := DefocusStep(t, s);
      && ThemeOf(r.state) == t
      && r.state.texteditor == s.state.texteditor
      && r.keybind == EditorKeybind
      && r.guide == Guide("", s.guide.style)
      && !IncrementalSearch.Active(r.searcher)
      && Inv(r)
  {
  }

  /** Focus, defocus, focus: the focus theme is back in full. */
  lemma FocusDefocusFocus(ft: EditorTheme, dt: EditorTheme, s: EditorState)
    ensures var r := FocusStep(ft, DefocusStep(dt, FocusStep(ft, s)));
      && ThemeOf(r.state) == ft
      && r.state == FocusStep(ft, s).state
  {
  }

  // ---------------------------------------------------------------------------
  // Properties of operate

  /** One `operate` keeps the invariant. */
  lemma OperateKeepsInv(kb: Keybinds, s: EditorState, e: Event)
    requires Inv(s)
    ensures Inv(OperateStep(kb, s, e))
  {
  }

  /** Any sequence of events keeps the invariant: whenever the editor navigates
      suggestions, a session with a current candidate is open. */
  lemma {:induction false} RunKeepsInv(kb: Keybinds, s: EditorState, events: seq<Event>)
    requires Inv(s)
    ensures Inv(Run(kb, s, events))
    decreases |events|
  {
    if events != [] {
      OperateKeepsInv(kb, s, events[0]);
      RunKeepsInv(kb, OperateStep(kb, s, events[0]), events[1..]);
    }
  }

  /** Two edit-mode dispatches in a row: the guide set by the first is gone after
      the second unless the second is itself a completion. */
  lemma GuideDoesNotPersist(kb: Keybinds, s: EditorState, e1: Event, e2: Event)
    requires EditStep(kb, s, e1).keybind == EditorKeybind
    requires !ResolveEdit(kb, e2).Complete?
    ensures var r := OperateStep(kb, EditStep(kb, s, e1), e2);
      r.guide.text == ""
  {
  }

  // ---------------------------------------------------------------------------
  // The editor object

  class Editor {
    var keybind: Keybind
    var state: TextEditor.State
    const focusTheme: EditorTheme
    const defocusTheme: EditorTheme
    var guide: Guide
    var searcher: IncrementalSearch.Searcher
    const keybinds: Keybinds

    /** The part of the editor that events change. */
    function Observed(): EditorState
      reads this
    {
      EditorState(keybind, state, guide, searcher)
    }

    predicate Valid()
      reads this
    {
      Inv(Observed())
    }

    /** `Editor::new`: edit mode, an empty unstyled guide. */
    constructor (state: TextEditor.State, searcher: IncrementalSearch.Searcher,
                 focusTheme: EditorTheme, defocusTheme: EditorTheme, keybinds: Keybinds)
      ensures Valid()
      ensures Observed() == EditorState(EditorKeybind, state, Guide("", DefaultStyle), searcher)
      ensures this.focusTheme == focusTheme && this.defocusTheme == defocusTheme
      ensures this.keybinds == keybinds
    {
      this.keybind := EditorKeybind;
      this.state := state;
      this.focusTheme := focusTheme;
      this.defocusTheme := defocusTheme;
      this.guide := Guide("", DefaultStyle);
      this.searcher := searcher;
      this.keybinds := keybinds;
    }

    method Focus()
      requires Valid()
      modifies this
      ensures Valid()
      ensures Observed() == FocusStep(focusTheme, old(Observed()))
    {
      state := state.(prefix := focusTheme.prefix);
      state := state.(prefixStyle := focusTheme.prefixStyle);
      state := state.(inactiveCharStyle := focusTheme.inactiveCharStyle);
      state := state.(activeCharStyle := focusTheme.activeCharStyle);
    }

    method Defocus()
      modifies this
      ensures Valid()
      ensures Observed() == DefocusStep(defocusTheme, old(Observed()))
    {
      state := state.(prefix := defocusTheme.prefix);
      state := state.(prefixStyle := defocusTheme.prefixStyle);
      state := state.(inactiveCharStyle := defocusTheme.inactiveCharStyle);
      state := state.(activeCharStyle := defocusTheme.activeCharStyle);

      searcher := IncrementalSearch.LeaveSearch(searcher);
      keybind := EditorKeybind;

      guide := guide.(text := "");
    }

    /** The buffer's text without the cursor. */
    function Text(): (r: string)
      reads this
      ensures r == TextEditor.TextWithoutCursor(state.texteditor)
    {
      state.texteditor.text
    }

    /** `operate`: run the current mode's handler; it never fails. */
    method Operate(event: Event) returns (r: Result<(), string>)
      requires Valid()
      modifies this
      ensures Valid()
      ensures r == Ok(())
      ensures Observed() == OperateStep(keybinds, old(Observed()), event)
    {
      match keybind {
        case EditorKeybind => r := Edit(event);
        case SearcherKeybind => r := Search(event);
      }
    }

    /** The edit-mode handler, run only while it is the current handler. A failed
        search is reported in the guide, never returned. */
    method Edit(event: Event) returns (r: Result<(), string>)
      requires keybind == EditorKeybind
      modifies this
      ensures Valid()
      ensures r == Ok(())
      ensures Observed() == EditStep(keybinds, old(Observed()), event)
    {
      guide := guide.(text := "");
      var action := ResolveEdit(keybinds, event);
      if action.Complete? {
        var prefix := TextEditor.TextWithoutCursor(state.texteditor);
        var started := IncrementalSearch.StartSearch(searcher, prefix);
        searcher := started.0;
        match started.1 {
          case Ok(result) =>
            match result.headItem {
              case Some(head) =>
                guide := Guide(LoadedMessage(result.loadState), Foreground(Green));
                state := state.(texteditor := TextEditor.Replace(state.texteditor, head));
                keybind := SearcherKeybind;
              case None =>
                guide := Guide(NoSuggestionMessage(prefix), Foreground(Yellow));
            }
          case Err(error) =>
            guide := Guide(LookupFailedMessage(error), Foreground(Yellow));
        }
      } else {
        state := state.(texteditor := ApplyToBuffer(state, action));
      }
      r := Ok(());
    }

    /** The suggestion-navigation handler. */
    method Search(event: Event) returns (r: Result<(), string>)
      requires Valid()
      modifies this
      ensures Valid()
      ensures r == Ok(())
      ensures Observed() == SearchStep(keybinds, old(Observed()), event)
    {
      if event == Key(KeyEvent(Tab, NoModifiers, Press, NoState))
        || event == Key(KeyEvent(Down, NoModifiers, Press, NoState))
      {
        searcher := IncrementalSearch.DownWithLoad(searcher);
        state := state.(texteditor := TextEditor.Replace(state.texteditor, IncrementalSearch.CurrentItem(searcher)));
      } else if event == Key(keybinds.searchUp) {
        searcher := IncrementalSearch.Up(searcher);
        state := state.(texteditor := TextEditor.Replace(state.texteditor, IncrementalSearch.CurrentItem(searcher)));
      } else {
        searcher := IncrementalSearch.LeaveSearch(searcher);
        keybind := EditorKeybind;
        r := Edit(event);
        return;
      }
      r := Ok(());
    }
  }
}
