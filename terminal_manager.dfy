/** The top-level key dispatcher of the console (src/main.rs).

    `HandleKey` is the effect of one key event on the application state,
    together with whether the console should stop; `Navigate` is the effect
    of a key while a region other than the input line has focus. The methods
    `HandleKeyEvent` and `HandleNavigation` perform them in place on an
    `AppState`. The terminal the source's manager object owns plays no part
    in either. */
module TerminalManager {
  import opened Keys
  import opened State
  import InputHandler

  datatype Option<T> = None | Some(value: T)

  /** The region a function key jumps to: F1 to F5 name the five regions. */
  function FKeyArea(n: FKeyNumber): (r: Option<FocusArea>)
    ensures r.Some? <==> 1 <= n <= 5
    ensures r == Some(Input) <==> n == 4
  {
    match n
    case 1 => Some(Header)
    case 2 => Some(Navigation)
    case 3 => Some(Preview)
    case 4 => Some(Input)
    case 5 => Some(Footer)
    case _ => None
  }

  /** Focus after 'h': one step back around Header, Navigation, Preview,
      Footer; the input region stays put. */
  function FocusLeft(f: FocusArea): (r: FocusArea)
    ensures r == Input <==> f == Input
    ensures f != Input ==> r != f
  {
    match f
    case Navigation => Header
    case Preview => Navigation
    case Footer => Preview
    case Header => Footer
    case Input => f
  }

  /** Focus after 'l': one step forward around the same four regions. */
  function FocusRight(f: FocusArea): (r: FocusArea)
    ensures r == Input <==> f == Input
    ensures f != Input ==> r != f
  {
    match f
    case Header => Navigation
    case Navigation => Preview
    case Preview => Footer
    case Footer => Header
    case Input => f
  }

  /** Focus after 'j' away from the navigation menu. */
  function FocusDown(f: FocusArea): (r: FocusArea)
    ensures r == Input <==> f == Input
    ensures f != Input ==> r != f
  {
    match f
    case Header => Navigation
    case Navigation => Preview
    case Preview => Footer
    case Footer => Header
    case Input => f
  }

  /** Focus after 'k' away from the navigation menu. */
  function FocusUp(f: FocusArea): (r: FocusArea)
    ensures r == Input <==> f == Input
    ensures f != Input ==> r != f
  {
    match f
    case Header => Footer
    case Navigation => Header
    case Preview => Navigation
    case Footer => Preview
    case Input => f
  }

  /** `handle_navigation`: h/l/j/k outside the input region. Only the focus
      and the menu selection can change, and the input region is never
      entered nor left. */
  function Navigate(v: AppView, key: KeyEvent): (r: AppView)
    ensures r.(focus := v.focus, selectedNavigationItem := v.selectedNavigationItem) == v
    ensures r.focus == Input <==> v.focus == Input
    ensures r.focus != v.focus ==> r.selectedNavigationItem == v.selectedNavigationItem
    ensures v.focus != Navigation ==> r.selectedNavigationItem == v.selectedNavigationItem
    ensures v.Valid() ==> r.Valid()
  {
    match key.code
    case Char(c) =>
      if c == 'h' then
        v.SetFocus(FocusLeft(v.focus))
      else if c == 'l' then
        v.SetFocus(FocusRight(v.focus))
      else if c == 'j' then
        if v.HasFocus(Navigation) then v.SelectNavigationItem(v.selectedNavigationItem + 1)
        else v.SetFocus(FocusDown(v.focus))
      else if c == 'k' then
        if v.HasFocus(Navigation) then
          if v.selectedNavigationItem > 0 then v.SelectNavigationItem(v.selectedNavigationItem - 1) else v
        else v.SetFocus(FocusUp(v.focus))
      else
        v
    case _ =>
      v
  }

  /** Where a key goes that no earlier rule of the dispatcher claims: the
      line editor while the input region has focus, the navigator
      otherwise. Routing never moves the focus into or out of the input
      region, never touches the quit dialog, and logs only on Enter in the
      input region; outside it, only the focus and the menu selection can
      change. */
  function Route(v: AppView, key: KeyEvent): (r: AppView)
    requires v.CursorInRange()
    ensures r.CursorInRange()
    ensures v.Valid() ==> r.Valid()
    ensures r.focus == Input <==> v.focus == Input
    ensures r.showQuitModal == v.showQuitModal
    ensures !(v.focus == Input && key.code == Enter) ==> r.outputLog == v.outputLog
    ensures v.focus != Input ==> r.(focus := v.focus, selectedNavigationItem := v.selectedNavigationItem) == v
    ensures v.focus == Input ==> r.selectedNavigationItem == v.selectedNavigationItem
  {
    if v.HasFocus(Input) then InputHandler.EditKey(v, key) else Navigate(v, key)
  }

  /** The state after a key event, and whether the console stops. */
  datatype Outcome = Outcome(state: AppView, quit: bool)

  /** `handle_key_event` of the terminal manager. */
  function HandleKey(v: AppView, key: KeyEvent): (r: Outcome)
    requires v.CursorInRange()
    ensures r.quit <==> v.showQuitModal && key.code == Char('y')
    ensures r.state.CursorInRange()
    ensures v.Valid() ==> r.state.Valid()
    ensures r.state.focus == Input && v.focus != Input ==> key.code == F(4)
    ensures key.code == F(4) ==> r.state.focus == Input
  {
    if key.code == Char('q') && key.modifiers.control then
      Outcome(v.(showQuitModal := true), false)
    else if key.code == Char('y') && v.showQuitModal then
      Outcome(v, true)
    else if key.code == Char('n') && v.showQuitModal then
      Outcome(v.(showQuitModal := false), false)
    else if key.code.F? then
      match FKeyArea(key.code.number)
      case Some(area) => Outcome(v.SetFocus(area), false)
      case None => Outcome(v, false)
    else
      Outcome(Route(v, key), false)
  }

  method HandleNavigation(app: AppState, key: KeyEvent)
    modifies app
    ensures app.View() == Navigate(old(app.View()), key)
  {
    match key.code {
      case Char(c) =>
        if c == 'h' {
          var newFocus := FocusLeft(app.focus);
          app.SetFocus(newFocus);
        } else if c == 'l' {
          var newFocus := FocusRight(app.focus);
          app.SetFocus(newFocus);
        } else if c == 'j' {
          if app.HasFocus(Navigation) {
            app.SelectNavigationItem(app.selectedNavigationItem + 1);
          } else {
            var newFocus := FocusDown(app.focus);
            app.SetFocus(newFocus);
          }
        } else if c == 'k' {
          if app.HasFocus(Navigation) {
            if app.selectedNavigationItem > 0 {
              app.SelectNavigationItem(app.selectedNavigationItem - 1);
            }
          } else {
            var newFocus := FocusUp(app.focus);
            app.SetFocus(newFocus);
          }
        }
      case _ =>
    }
  }

  method HandleKeyEvent(app: AppState, key: KeyEvent) returns (quit: bool)
    requires app.cursorPosition <= |app.inputBuffer|
    modifies app
    ensures app.View() == HandleKey(old(app.View()), key).state
    ensures quit == HandleKey(old(app.View()), key).quit
  {
    if key.code == Char('q') && key.modifiers.control {
      app.showQuitModal := true;
      quit := false;
    } else if key.code == Char('y') && app.showQuitModal {
      quit := true;
    } else if key.code == Char('n') && app.showQuitModal {
      app.showQuitModal := false;
      quit := false;
    } else if key.code.F? {
      var focus := FKeyArea(key.code.number);
      if focus.Some? {
        app.SetFocus(focus.value);
      }
      quit := false;
    } else {
      if app.HasFocus(Input) {
        InputHandler.HandleKeyEvent(app, key);
      } else {
        HandleNavigation(app, key);
      }
      quit := false;
    }
  }

  /** The state after a series of key events, delivered one at a time;
      the first event that asks to stop ends the series. */
  function Replay(v: AppView, keys: seq<KeyEvent>): (r: Outcome)
    requires v.CursorInRange()
    ensures r.state.CursorInRange()
    ensures v.Valid() ==> r.state.Valid()
    decreases |keys|
  {
    if keys == [] then Outcome(v, false)
    else
      var step := HandleKey(v, keys[0]);
      if step.quit then step else Replay(step.state, keys[1..])
  }

  // ---------------------------------------------------------------------
  // Properties of the dispatcher

  /** From a fresh state, whatever keys arrive, the cursor stays within the
      line, the selection within the menu, and an empty line is never in
      command mode. */
  lemma SessionKeepsInvariant(keys: seq<KeyEvent>)
    ensures Replay(Initial(), keys).state.Valid()
  {
  }

  /** 'h' and 'l' undo each other. */
  lemma LeftRightInverse(f: FocusArea)
    ensures FocusRight(FocusLeft(f)) == f
    ensures FocusLeft(FocusRight(f)) == f
  {
  }

  /** 'l' visits the four regions other than the input line in one cycle. */
  lemma RightIsFourCycle(f: FocusArea)
    requires f != Input
    ensures FocusRight(f) != f && FocusRight(FocusRight(f)) != f && FocusRight(FocusRight(FocusRight(f))) != f
    ensures FocusRight(FocusRight(FocusRight(FocusRight(f)))) == f
  {
  }

  /** Away from the menu, 'j' moves like 'l' and 'k' like 'h'. */
  lemma DownUpFollowRightLeft(f: FocusArea)
    ensures FocusDown(f) == FocusRight(f)
    ensures FocusUp(f) == FocusLeft(f)
  {
  }

  /** Distinct function keys lead to distinct regions. */
  lemma FKeyAreaInjective(n: FKeyNumber, m: FKeyNumber)
    requires FKeyArea(n).Some? && FKeyArea(n) == FKeyArea(m)
    ensures n == m
  {
  }

  /** Ctrl-Q raises the quit dialog whatever has focus, the input line
      included, and changes nothing else. */
  lemma QuitRequest(v: AppView, others: bool)
    requires v.CursorInRange()
    ensures HandleKey(v, KeyEvent(Char('q'), Modifiers(true, others))) == Outcome(v.(showQuitModal := true), false)
  {
  }

  /** While the dialog shows, 'y' stops the console and leaves the state
      as it is, and 'n' closes the dialog and changes nothing else; the
      modifiers do not matter. */
  lemma DialogAnswers(v: AppView, key: KeyEvent)
    requires v.CursorInRange() && v.showQuitModal
    ensures key.code == Char('y') ==> HandleKey(v, key) == Outcome(v, true)
    ensures key.code == Char('n') ==> HandleKey(v, key) == Outcome(v.(showQuitModal := false), false)
  {
  }

  /** Asking to quit and then answering 'n' gives back the state as it
      was before the request, whatever modifiers come with the keys. */
  lemma QuitThenCancel(v: AppView, ask: KeyEvent, no: KeyEvent)
    requires v.CursorInRange() && !v.showQuitModal
    requires ask.code == Char('q') && ask.modifiers.control && no.code == Char('n')
    ensures var asked := HandleKey(v, ask);
            var r := HandleKey(asked.state, no);
      asked.state.showQuitModal && !asked.quit && r == Outcome(v, false)
  {
  }

  /** Without the dialog, 'y' and 'n' are ordinary keys. */
  lemma YesNoWithoutDialog(v: AppView, key: KeyEvent)
    requires v.CursorInRange() && !v.showQuitModal
    requires key.code in {Char('y'), Char('n')}
    ensures HandleKey(v, key) == Outcome(Route(v, key), false)
  {
  }

  /** While the dialog shows, a key other than Ctrl-Q, 'y', 'n' or a
      function key is still routed to the region that has focus. */
  lemma DialogDoesNotBlockRouting(v: AppView, key: KeyEvent)
    requires v.CursorInRange() && v.showQuitModal
    requires key.code !in {Char('y'), Char('n')} && !key.code.F?
    requires !(key.code == Char('q') && key.modifiers.control)
    ensures HandleKey(v, key) == Outcome(Route(v, key), false)
  {
  }

  /** Every key that is not Ctrl-Q, not a function key and not an answer
      to a showing dialog goes to the editor when the input region has
      focus and to the navigator otherwise, and never stops the console. */
  lemma RoutesOtherKeys(v: AppView, key: KeyEvent)
    requires v.CursorInRange()
    requires !(key.code == Char('q') && key.modifiers.control) && !key.code.F?
    requires !(v.showQuitModal && key.code in {Char('y'), Char('n')})
    ensures HandleKey(v, key) == Outcome(Route(v, key), false)
    ensures v.focus == Input ==> HandleKey(v, key).state == InputHandler.EditKey(v, key)
    ensures v.focus != Input ==> HandleKey(v, key).state == Navigate(v, key)
  {
  }

  /** F1 to F5 move the focus to their region whatever state the console is
      in; any other function key changes nothing. */
  lemma FunctionKeys(v: AppView, key: KeyEvent)
    requires v.CursorInRange() && key.code.F?
    ensures key.code.number == 1 ==> HandleKey(v, key) == Outcome(v.SetFocus(Header), false)
    ensures key.code.number == 2 ==> HandleKey(v, key) == Outcome(v.SetFocus(Navigation), false)
    ensures key.code.number == 3 ==> HandleKey(v, key) == Outcome(v.SetFocus(Preview), false)
    ensures key.code.number == 4 ==> HandleKey(v, key) == Outcome(v.SetFocus(Input), false)
    ensures key.code.number == 5 ==> HandleKey(v, key) == Outcome(v.SetFocus(Footer), false)
    ensures !(1 <= key.code.number <= 5) ==> HandleKey(v, key) == Outcome(v, false)
  {
  }

  /** With the menu focused, 'j' and 'k' move the selection by one,
      saturating at the last entry and stopping at the first. Only the key
      code matters, not the modifiers. */
  lemma MenuSelection(v: AppView, j: KeyEvent, k: KeyEvent)
    requires v.Valid() && v.HasFocus(Navigation)
    requires j.code == Char('j') && k.code == Char('k')
    ensures var down := Navigate(v, j);
      && down.focus == Navigation
      && down.selectedNavigationItem == if v.selectedNavigationItem + 1 < NavigationItemsCount then v.selectedNavigationItem + 1 else v.selectedNavigationItem
    ensures var up := Navigate(v, k);
      && up.focus == Navigation
      && up.selectedNavigationItem == if v.selectedNavigationItem > 0 then v.selectedNavigationItem - 1 else 0
    ensures v.selectedNavigationItem == NavigationItemsCount - 1 ==> Navigate(v, j) == v
    ensures v.selectedNavigationItem == 0 ==> Navigate(v, k) == v
  {
  }

  /** 'h' and 'l' move the focus along the left and right tables, and 'j'
      and 'k' away from the menu along the down and up tables, whatever the
      modifiers. */
  lemma NavigateUsesTables(v: AppView, key: KeyEvent)
    ensures key.code == Char('h') ==> Navigate(v, key) == v.SetFocus(FocusLeft(v.focus))
    ensures key.code == Char('l') ==> Navigate(v, key) == v.SetFocus(FocusRight(v.focus))
    ensures key.code == Char('j') && !v.HasFocus(Navigation) ==> Navigate(v, key) == v.SetFocus(FocusDown(v.focus))
    ensures key.code == Char('k') && !v.HasFocus(Navigation) ==> Navigate(v, key) == v.SetFocus(FocusUp(v.focus))
  {
  }

  /** Pressing 'h' and then 'l' gives back the state as it was, and so does
      'l' then 'h'. */
  lemma LeftRightKeysUndo(v: AppView, h: KeyEvent, l: KeyEvent)
    requires h.code == Char('h') && l.code == Char('l')
    ensures Navigate(Navigate(v, h), l) == v
    ensures Navigate(Navigate(v, l), h) == v
  {
    NavigateUsesTables(v, h);
    NavigateUsesTables(v, l);
    NavigateUsesTables(Navigate(v, h), l);
    NavigateUsesTables(Navigate(v, l), h);
    LeftRightInverse(v.focus);
  }

  /** Keys other than h, l, j and k do nothing outside the input line. */
  lemma OtherKeysIgnored(v: AppView, key: KeyEvent)
    requires !(key.code.Char? && key.code.ch in {'h', 'l', 'j', 'k'})
    ensures Navigate(v, key) == v
  {
  }

  /** A series of key events that holds no F4 never brings the focus to
      the input line. */
  lemma {:induction false} InputReachedOnlyByF4(v: AppView, keys: seq<KeyEvent>)
    requires v.CursorInRange() && v.focus != Input
    requires forall i :: 0 <= i < |keys| ==> keys[i].code != F(4)
    ensures Replay(v, keys).state.focus != Input
    decreases |keys|
  {
    if keys != [] {
      var step := HandleKey(v, keys[0]);
      if !step.quit {
        InputReachedOnlyByF4(step.state, keys[1..]);
      }
    }
  }

  /** Only 'y' with the dialog showing stops the console. */
  lemma {:induction false} ReplayStopsOnlyOnYes(v: AppView, keys: seq<KeyEvent>)
    requires v.CursorInRange()
    requires forall i :: 0 <= i < |keys| ==> keys[i].code != Char('y')
    ensures !Replay(v, keys).quit
    decreases |keys|
  {
    if keys != [] {
      ReplayStopsOnlyOnYes(HandleKey(v, keys[0]).state, keys[1..]);
    }
  }

  /** Replaying two series one after the other is replaying them joined. */
  lemma {:induction false} ReplayAppend(v: AppView, a: seq<KeyEvent>, b: seq<KeyEvent>)
    requires v.CursorInRange()
    ensures Replay(v, a + b) ==
      var first := Replay(v, a);
      if first.quit then first else Replay(first.state, b)
    decreases |a|
  {
    if a == [] {
      assert a + b == b;
    } else {
      assert (a + b)[0] == a[0];
      assert (a + b)[1..] == a[1..] + b;
      var step := HandleKey(v, a[0]);
      if !step.quit {
        ReplayAppend(step.state, a[1..], b);
      }
    }
  }

  /** With the input line focused and no dialog showing, typed characters
      go to the line editor one by one. */
  lemma {:induction false} TypingGoesToEditor(v: AppView, s: string)
    requires v.CursorInRange() && v.HasFocus(Input) && !v.showQuitModal
    ensures Replay(v, Keystrokes(s)) == Outcome(InputHandler.TypeText(v, s), false)
    decreases |s|
  {
    if s != [] {
      var keys := Keystrokes(s);
      assert keys[0] == Plain(Char(s[0]));
      assert keys[1..] == Keystrokes(s[1..]);
      var w := InputHandler.EditKey(v, Plain(Char(s[0])));
      assert HandleKey(v, keys[0]) == Outcome(w, false);
      TypingGoesToEditor(w, s[1..]);
    }
  }

  /** Typing a line into an empty input region and pressing Enter logs
      exactly that line. A line typed with a leading '/' is a command and the
      preview shows its answer; any other line leaves its echo in the
      preview. Afterwards the line is empty and out of command mode. */
  lemma SubmitTypedLine(v: AppView, s: string)
    requires v.Valid() && v.HasFocus(Input) && !v.showQuitModal && v.inputBuffer == []
    ensures var r := Replay(v, Keystrokes(s) + [Plain(Enter)]);
      && !r.quit
      && r.state.outputLog == v.outputLog + [s]
      && r.state.previewContent ==
           (if s == [] then v.previewContent
            else if s[0] == '/' then InputHandler.HandleCommand(s)
            else InputHandler.PreviewText(s, false))
      && r.state.inputBuffer == [] && r.state.cursorPosition == 0 && !r.state.isCommandMode
      && r.state.focus == Input
  {
    ReplayAppend(v, Keystrokes(s), [Plain(Enter)]);
    TypingGoesToEditor(v, s);
    var typed := InputHandler.TypeText(v, s);
    InputHandler.TypeTextInserts(v, s);
    assert typed.inputBuffer == s;
    InputHandler.EnterSubmits(typed, Plain(Enter));
    assert HandleKey(typed, Plain(Enter)) == Outcome(InputHandler.Submit(typed), false);
    assert Replay(typed, [Plain(Enter)]) == HandleKey(typed, Plain(Enter));
  }

  /** A sample command: from a fresh state,
      F4, type "/help", Enter. The line is logged and the preview shows the
      help text. */
  lemma HelpScenario()
    ensures var r := Replay(Initial(), [Plain(F(4))] + (Keystrokes("/help") + [Plain(Enter)]));
      && !r.quit
      && r.state.outputLog == ["/help"]
      && r.state.previewContent == InputHandler.HelpText
      && r.state.inputBuffer == [] && !r.state.isCommandMode
  {
    var v := Initial();
    var atInput := v.SetFocus(Input);
    assert Replay(v, [Plain(F(4))]) == Outcome(atInput, false);
    ReplayAppend(v, [Plain(F(4))], Keystrokes("/help") + [Plain(Enter)]);
    SubmitTypedLine(atInput, "/help");
    assert InputHandler.StripSlash("/help") == "help";
  }
}
