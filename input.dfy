/** The line editor of the input region (src/core/input.rs).

    `EditKey` is the effect of one key on the application state while the
    input region has focus; the method `HandleKeyEvent` performs it in place
    on an `AppState` and is proved to agree with it. The buffer holds one
    character per cursor position. */
module InputHandler {
  import opened Keys
  import opened State

  /** The answer to the `help` command. */
  const HelpText := "Available commands: /help, /clear"

  /** What precedes the text of a command nobody knows. */
  const UnknownPrefix := "Unknown command: "

  /** Removes one leading '/', if there is one. */
  function StripSlash(command: string): (r: string)
    ensures command == r || command == "/" + r
    ensures |command| > 0 && command[0] == '/' ==> command == "/" + r
  {
    if |command| > 0 && command[0] == '/' then command[1..] else command
  }

  /** The command interpreter: `help`, `clear`, or an "unknown" answer. */
  function HandleCommand(command: string): (r: string)
    ensures r == HelpText <==> StripSlash(command) == "help"
    ensures r == "" <==> StripSlash(command) == "clear"
    ensures StripSlash(command) != "help" && StripSlash(command) != "clear" ==>
              r == UnknownPrefix + StripSlash(command)
  {
    var cmd := StripSlash(command);
    if cmd == "help" then HelpText
    else if cmd == "clear" then ""
    else
      var r := UnknownPrefix + cmd;
      assert r[0] != HelpText[0];
      r
  }

  /** The line with `c` inserted before position `i`. */
  function InsertAt(s: string, i: nat, c: char): (r: string)
    requires i <= |s|
    ensures |r| == |s| + 1
  {
    s[..i] + [c] + s[i..]
  }

  /** The line with the character at position `i` taken out. */
  function RemoveAt(s: string, i: nat): (r: string)
    requires i < |s|
    ensures |r| == |s| - 1
  {
    s[..i] + s[i + 1..]
  }

  /** The two known commands, with or without their slash; only one slash
      is stripped, and case matters. */
  lemma CommandVocabulary()
    ensures HandleCommand("/help") == HelpText && HandleCommand("help") == HelpText
    ensures HandleCommand("/clear") == "" && HandleCommand("clear") == ""
    ensures HandleCommand("//help") == UnknownPrefix + "/help"
    ensures HandleCommand("/Help") == UnknownPrefix + "Help"
    ensures HandleCommand("") == UnknownPrefix
  {
    assert StripSlash("/help") == "help";
    assert StripSlash("/clear") == "clear";
    assert StripSlash("//help") == "/help";
    assert StripSlash("/Help") == "Help";
  }

  /** The text the preview shows while a line is being edited. */
  function PreviewText(buffer: string, commandMode: bool): (r: string)
    ensures |r| == (if commandMode then 9 else 6) + |buffer|
    ensures r[|r| - |buffer|..] == buffer
    ensures commandMode ==> r[..9] == "Command: "
    ensures !commandMode ==> r[..6] == "Echo: "
  {
    (if commandMode then "Command: " else "Echo: ") + buffer
  }

  /** `update_preview`: the preview shows the line being edited, and
      nothing else changes. */
  function WithPreview(v: AppView): (r: AppView)
    ensures r.previewContent == PreviewText(v.inputBuffer, v.isCommandMode)
    ensures r.(previewContent := v.previewContent) == v
  {
    v.UpdatePreview(PreviewText(v.inputBuffer, v.isCommandMode))
  }

  /** `update_preview_and_mode`: an empty line leaves command mode, then
      the preview is refreshed. */
  function WithPreviewAndMode(v: AppView): (r: AppView)
    ensures r.isCommandMode <==> v.isCommandMode && v.inputBuffer != []
    ensures r.previewContent == PreviewText(r.inputBuffer, r.isCommandMode)
    ensures r.(isCommandMode := v.isCommandMode, previewContent := v.previewContent) == v
  {
    WithPreview(if v.inputBuffer == [] then v.(isCommandMode := false) else v)
  }

  /** The effect of a character key on the line: the control shortcuts
      Ctrl-A, Ctrl-E, Ctrl-U and Ctrl-K, and insertion of a character typed
      without modifiers. Any other combination does nothing. */
  function EditChar(v: AppView, c: char, modifiers: Modifiers): (r: AppView)
    requires v.CursorInRange()
    ensures r.CursorInRange()
    ensures v.Valid() ==> r.Valid()
    ensures r.(inputBuffer := v.inputBuffer, cursorPosition := v.cursorPosition,
               isCommandMode := v.isCommandMode, previewContent := v.previewContent) == v
  {
    var b, cur := v.inputBuffer, v.cursorPosition;
    if c == 'a' && modifiers.control then
      v.(cursorPosition := 0)
    else if c == 'e' && modifiers.control then
      v.(cursorPosition := |b|)
    else if c == 'u' && modifiers.control then
      WithPreviewAndMode(v.(inputBuffer := b[cur..], cursorPosition := 0))
    else if c == 'k' && modifiers.control then
      WithPreviewAndMode(v.(inputBuffer := b[..cur]))
    else if modifiers.IsEmpty() then
      var mode := if b == [] && c == '/' then true else v.isCommandMode;
      WithPreview(v.(isCommandMode := mode, inputBuffer := InsertAt(b, cur, c), cursorPosition := cur + 1))
    else
      v
  }

  /** Enter: in command mode the preview shows the command's answer; the
      raw line is logged, even an empty one; the line is then emptied and
      command mode left. */
  function Submit(v: AppView): (r: AppView)
    ensures r.outputLog == v.outputLog + [v.inputBuffer]
    ensures r.previewContent == if v.isCommandMode then HandleCommand(v.inputBuffer) else v.previewContent
    ensures r.inputBuffer == [] && r.cursorPosition == 0 && !r.isCommandMode
    ensures r.focus == v.focus && r.showQuitModal == v.showQuitModal
    ensures r.selectedNavigationItem == v.selectedNavigationItem
  {
    var previewed := if v.isCommandMode then v.UpdatePreview(HandleCommand(v.inputBuffer)) else v;
    previewed.LogOutput(v.inputBuffer).ResetInput()
  }

  /** The effect of one key on the state while the input region has focus.
      The source would panic on a cursor beyond the end of the buffer. */
  function EditKey(v: AppView, key: KeyEvent): (r: AppView)
    requires v.CursorInRange()
    ensures r.CursorInRange()
    ensures v.Valid() ==> r.Valid()
    ensures r.focus == v.focus && r.showQuitModal == v.showQuitModal
    ensures r.selectedNavigationItem == v.selectedNavigationItem
    ensures key.code != Enter ==> r.outputLog == v.outputLog
  {
    var b, cur := v.inputBuffer, v.cursorPosition;
    match key.code
    case Char(c) =>
      EditChar(v, c, key.modifiers)
    case Backspace =>
      if cur > 0 then
        WithPreviewAndMode(v.(cursorPosition := cur - 1, inputBuffer := RemoveAt(b, cur - 1)))
      else
        v
    case Delete =>
      if cur < |b| then
        WithPreviewAndMode(v.(inputBuffer := RemoveAt(b, cur)))
      else
        v
    case Left =>
      if cur > 0 then v.(cursorPosition := cur - 1) else v
    case Right =>
      if cur < |b| then v.(cursorPosition := cur + 1) else v
    case Home =>
      v.(cursorPosition := 0)
    case End =>
      v.(cursorPosition := |b|)
    case Enter =>
      Submit(v)
    case _ =>
      v
  }

  method UpdatePreview(app: AppState)
    modifies app
    ensures app.View() == WithPreview(old(app.View()))
  {
    var content := if app.isCommandMode then "Command: " + app.inputBuffer else "Echo: " + app.inputBuffer;
    app.UpdatePreview(content);
  }

  method UpdatePreviewAndMode(app: AppState)
    modifies app
    ensures app.View() == WithPreviewAndMode(old(app.View()))
  {
    if app.inputBuffer == [] {
      app.isCommandMode := false;
    }
    UpdatePreview(app);
  }

  /** The character arm of `handle_key_event`: the control shortcuts and
      plain insertion. */
  method HandleCharKey(app: AppState, key: KeyEvent)
    requires app.cursorPosition <= |app.inputBuffer| && key.code.Char?
    modifies app
    ensures app.View() == EditKey(old(app.View()), key)
  {
    var c, control := key.code.ch, key.modifiers.control;
    if c == 'a' && control {
      app.cursorPosition := 0;
    } else if c == 'e' && control {
      app.cursorPosition := |app.inputBuffer|;
    } else if c == 'u' && control {
      var remaining := app.inputBuffer[app.cursorPosition..];
      app.inputBuffer := remaining;
      app.cursorPosition := 0;
      UpdatePreviewAndMode(app);
    } else if c == 'k' && control {
      app.inputBuffer := app.inputBuffer[..app.cursorPosition];
      UpdatePreviewAndMode(app);
    } else if key.modifiers.IsEmpty() {
      if app.inputBuffer == [] && c == '/' {
        app.isCommandMode := true;
      }
      app.inputBuffer := InsertAt(app.inputBuffer, app.cursorPosition, c);
      app.cursorPosition := app.cursorPosition + 1;
      UpdatePreview(app);
    }
  }

  /** The Backspace and Delete arms of `handle_key_event`. */
  method HandleDeletion(app: AppState, key: KeyEvent)
    requires app.cursorPosition <= |app.inputBuffer|
    requires key.code == Backspace || key.code == Delete
    modifies app
    ensures app.View() == EditKey(old(app.View()), key)
  {
    if key.code == Backspace {
      if app.cursorPosition > 0 {
        app.cursorPosition := app.cursorPosition - 1;
        app.inputBuffer := RemoveAt(app.inputBuffer, app.cursorPosition);
        UpdatePreviewAndMode(app);
      }
    } else {
      if app.cursorPosition < |app.inputBuffer| {
        app.inputBuffer := RemoveAt(app.inputBuffer, app.cursorPosition);
        UpdatePreviewAndMode(app);
      }
    }
  }

  /** `handle_key_event` of the input region, in place. */
  method HandleKeyEvent(app: AppState, key: KeyEvent)
    requires app.cursorPosition <= |app.inputBuffer|
    modifies app
    ensures app.View() == EditKey(old(app.View()), key)
  {
    match key.code {
      case Char(_) =>
        HandleCharKey(app, key);
      case Backspace =>
        HandleDeletion(app, key);
      case Delete =>
        HandleDeletion(app, key);
      case Left =>
        if app.cursorPosition > 0 {
          app.cursorPosition := app.cursorPosition - 1;
        }
      case Right =>
        if app.cursorPosition < |app.inputBuffer| {
          app.cursorPosition := app.cursorPosition + 1;
        }
      case Home =>
        app.cursorPosition := 0;
      case End =>
        app.cursorPosition := |app.inputBuffer|;
      case Enter =>
        if app.isCommandMode {
          var previewContent := HandleCommand(app.inputBuffer);
          app.UpdatePreview(previewContent);
        }
        app.LogOutput(app.inputBuffer);
        app.ResetInput();
      case _ =>
    }
  }

  // ---------------------------------------------------------------------
  // Properties of the editor

  /** Keys that only move the cursor change nothing but the cursor. The
      arrows, Home and End work whatever the modifiers; 'a' and 'e' do so
      with any set of modifiers that holds CONTROL. */
  lemma CursorKeysOnlyMoveCursor(v: AppView, key: KeyEvent)
    requires v.CursorInRange()
    requires key.code in {Left, Right, Home, End} || (key.code in {Char('a'), Char('e')} && key.modifiers.control)
    ensures EditKey(v, key) == v.(cursorPosition := EditKey(v, key).cursorPosition)
    ensures key.code == Home || key.code == Char('a') ==> EditKey(v, key).cursorPosition == 0
    ensures key.code == End || key.code == Char('e') ==> EditKey(v, key).cursorPosition == |v.inputBuffer|
    ensures key.code == Left ==> EditKey(v, key).cursorPosition == if v.cursorPosition == 0 then 0 else v.cursorPosition - 1
    ensures key.code == Right ==>
              EditKey(v, key).cursorPosition == if v.cursorPosition == |v.inputBuffer| then v.cursorPosition else v.cursorPosition + 1
  {
  }

  /** The editor ignores every key it has no rule for: a key code without
      an arm, and a character typed with modifiers unless it is one of the
      CONTROL shortcuts for 'a', 'e', 'u' and 'k'. */
  lemma EditorIgnoresOtherKeys(v: AppView, key: KeyEvent)
    requires v.CursorInRange()
    requires || key.code.Other?
             || (key.code.Char? && !key.modifiers.IsEmpty() && !(key.modifiers.control && key.code.ch in {'a', 'e', 'u', 'k'}))
    ensures EditKey(v, key) == v
  {
  }

  /** Enter submits the line whatever the modifiers. */
  lemma EnterSubmits(v: AppView, key: KeyEvent)
    requires v.CursorInRange() && key.code == Enter
    ensures EditKey(v, key) == Submit(v)
  {
  }

  /** A character typed without modifiers lands at the cursor, which moves
      past it; the rest of the line is kept on both sides. Command mode is
      switched on only by a '/' typed into an empty line. */
  lemma InsertAtCursor(v: AppView, c: char)
    requires v.CursorInRange()
    ensures var r := EditKey(v, Plain(Char(c)));
      && r.inputBuffer == InsertAt(v.inputBuffer, v.cursorPosition, c)
      && |r.inputBuffer| == |v.inputBuffer| + 1
      && r.cursorPosition == v.cursorPosition + 1
      && r.inputBuffer[v.cursorPosition] == c
      && r.inputBuffer[..v.cursorPosition] == v.inputBuffer[..v.cursorPosition]
      && r.inputBuffer[v.cursorPosition + 1..] == v.inputBuffer[v.cursorPosition..]
      && (r.isCommandMode <==> v.isCommandMode || (v.inputBuffer == [] && c == '/'))
      && r.previewContent == PreviewText(r.inputBuffer, r.isCommandMode)
      && r.outputLog == v.outputLog
  {
    var r := EditKey(v, Plain(Char(c)));
    var b, cur := v.inputBuffer, v.cursorPosition;
    assert r.inputBuffer == b[..cur] + [c] + b[cur..];
    assert r.inputBuffer[cur + 1..] == b[cur..];
  }

  /** Backspace right after typing a character gives back the line, the
      cursor and the mode as they were. */
  lemma InsertThenBackspace(v: AppView, c: char)
    requires v.Valid()
    ensures var r := EditKey(EditKey(v, Plain(Char(c))), Plain(Backspace));
      r.(previewContent := v.previewContent) == v
  {
    var b, cur := v.inputBuffer, v.cursorPosition;
    var w := EditKey(v, Plain(Char(c)));
    assert w.inputBuffer == b[..cur] + [c] + b[cur..];
    var r := EditKey(w, Plain(Backspace));
    assert r.inputBuffer == w.inputBuffer[..cur] + w.inputBuffer[cur + 1..];
    assert w.inputBuffer[..cur] == b[..cur];
    assert w.inputBuffer[cur + 1..] == b[cur..];
    assert b[..cur] + b[cur..] == b;
  }

  /** Backspace, with any modifiers, removes the character before the
      cursor; at the start of the line it does nothing. After a removal,
      command mode survives only on a non-empty line and the preview shows
      the new line. */
  lemma BackspaceRemovesBefore(v: AppView, key: KeyEvent)
    requires v.CursorInRange() && key.code == Backspace
    ensures var r := EditKey(v, key);
      && (v.cursorPosition == 0 ==> r == v)
      && (v.cursorPosition > 0 ==>
            && r.cursorPosition == v.cursorPosition - 1
            && |r.inputBuffer| == |v.inputBuffer| - 1
            && (forall i :: 0 <= i < r.cursorPosition ==> r.inputBuffer[i] == v.inputBuffer[i])
            && (forall i :: r.cursorPosition <= i < |r.inputBuffer| ==> r.inputBuffer[i] == v.inputBuffer[i + 1])
            && (r.isCommandMode <==> v.isCommandMode && r.inputBuffer != [])
            && r.previewContent == PreviewText(r.inputBuffer, r.isCommandMode))
  {
    if v.cursorPosition > 0 {
      var b, cur := v.inputBuffer, v.cursorPosition;
      var r := EditKey(v, key);
      assert r == WithPreviewAndMode(v.(cursorPosition := cur - 1, inputBuffer := RemoveAt(b, cur - 1)));
      assert r.inputBuffer == b[..cur - 1] + b[cur..];
    }
  }

  /** Delete, with any modifiers, removes the character under the cursor
      and leaves the cursor where it is; at the end of the line it does
      nothing. After a removal, mode and preview follow the new line as for
      Backspace. */
  lemma DeleteRemovesAt(v: AppView, key: KeyEvent)
    requires v.CursorInRange() && key.code == Delete
    ensures var r := EditKey(v, key);
      && (v.cursorPosition == |v.inputBuffer| ==> r == v)
      && (v.cursorPosition < |v.inputBuffer| ==>
            && r.cursorPosition == v.cursorPosition
            && |r.inputBuffer| == |v.inputBuffer| - 1
            && (forall i :: 0 <= i < r.cursorPosition ==> r.inputBuffer[i] == v.inputBuffer[i])
            && (forall i :: r.cursorPosition <= i < |r.inputBuffer| ==> r.inputBuffer[i] == v.inputBuffer[i + 1])
            && (r.isCommandMode <==> v.isCommandMode && r.inputBuffer != [])
            && r.previewContent == PreviewText(r.inputBuffer, r.isCommandMode))
  {
    if v.cursorPosition < |v.inputBuffer| {
      var b, cur := v.inputBuffer, v.cursorPosition;
      var r := EditKey(v, key);
      assert r == WithPreviewAndMode(v.(inputBuffer := RemoveAt(b, cur)));
      assert r.inputBuffer == b[..cur] + b[cur + 1..];
    }
  }

  /** Moving left and deleting forward is the same as a backspace. */
  lemma LeftThenDeleteIsBackspace(v: AppView)
    requires v.CursorInRange()
    requires v.cursorPosition > 0
    ensures EditKey(EditKey(v, Plain(Left)), Plain(Delete)) == EditKey(v, Plain(Backspace))
  {
  }

  /** Ctrl-U keeps what follows the cursor and Ctrl-K what precedes it:
      the two pieces put together are the whole line. Any modifiers may
      accompany CONTROL. After either kill, command mode survives only on a
      non-empty line and the preview shows what is left. */
  lemma KillsSplitTheLine(v: AppView, kModifiers: Modifiers, uModifiers: Modifiers)
    requires v.CursorInRange() && kModifiers.control && uModifiers.control
    ensures var before := EditKey(v, KeyEvent(Char('k'), kModifiers));
            var after := EditKey(v, KeyEvent(Char('u'), uModifiers));
      && before.inputBuffer + after.inputBuffer == v.inputBuffer
      && |before.inputBuffer| == v.cursorPosition
      && before.cursorPosition == v.cursorPosition
      && after.cursorPosition == 0
      && (before.isCommandMode <==> v.isCommandMode && before.inputBuffer != [])
      && before.previewContent == PreviewText(before.inputBuffer, before.isCommandMode)
      && (after.isCommandMode <==> v.isCommandMode && after.inputBuffer != [])
      && after.previewContent == PreviewText(after.inputBuffer, after.isCommandMode)
  {
    var b, cur := v.inputBuffer, v.cursorPosition;
    assert b[..cur] + b[cur..] == b;
  }

  /** The state after typing the characters of `s` one by one. */
  function TypeText(v: AppView, s: string): (r: AppView)
    requires v.CursorInRange()
    ensures r.CursorInRange()
    decreases |s|
  {
    if s == [] then v else TypeText(EditKey(v, Plain(Char(s[0]))), s[1..])
  }

  /** Typing a text inserts it at the cursor, which ends up just after it.
      Command mode is on afterwards exactly when it was on before, or the
      line was empty and the text starts with '/'. */
  lemma {:induction false} TypeTextInserts(v: AppView, s: string)
    requires v.CursorInRange()
    ensures var r := TypeText(v, s);
      && r.inputBuffer == v.inputBuffer[..v.cursorPosition] + s + v.inputBuffer[v.cursorPosition..]
      && r.cursorPosition == v.cursorPosition + |s|
      && (r.isCommandMode <==> v.isCommandMode || (v.inputBuffer == [] && s != [] && s[0] == '/'))
      && (s != [] ==> r.previewContent == PreviewText(r.inputBuffer, r.isCommandMode))
      && r.outputLog == v.outputLog && r.focus == v.focus && r.showQuitModal == v.showQuitModal
    decreases |s|
  {
    if s != [] {
      var b, cur := v.inputBuffer, v.cursorPosition;
      var w := EditKey(v, Plain(Char(s[0])));
      InsertAtCursor(v, s[0]);
      TypeTextInserts(w, s[1..]);
      InsertThenType(b, cur, s);
      assert w.inputBuffer != [];
    }
  }

  /** Inserting the first character of `s` at `cur` and then the rest just
      after it inserts all of `s` at `cur`. */
  lemma InsertThenType(b: string, cur: nat, s: string)
    requires cur <= |b| && s != []
    ensures var w := InsertAt(b, cur, s[0]);
      w[..cur + 1] + s[1..] + w[cur + 1..] == b[..cur] + s + b[cur..]
  {
    var w := InsertAt(b, cur, s[0]);
    assert w[..cur + 1] == b[..cur] + [s[0]];
    assert w[cur + 1..] == b[cur..];
    assert [s[0]] + s[1..] == s;
  }

  /** A sample edit: type "abc", move left
      twice, delete forward. */
  lemma DeleteScenario(v: AppView)
    requires v.inputBuffer == [] && v.cursorPosition == 0
    ensures var r := EditKey(EditKey(EditKey(TypeText(v, "abc"), Plain(Left)), Plain(Left)), Plain(Delete));
      r.inputBuffer == "ac" && r.cursorPosition == 1
  {
    var typed := TypeText(v, "abc");
    TypeTextInserts(v, "abc");
    assert typed.inputBuffer == "abc" && typed.cursorPosition == 3;
    LeftLeftDelete(typed);
  }

  /** Left, Left and Delete from the end of "abc". */
  lemma LeftLeftDelete(w: AppView)
    requires w.inputBuffer == "abc" && w.cursorPosition == 3
    ensures var r := EditKey(EditKey(EditKey(w, Plain(Left)), Plain(Left)), Plain(Delete));
      r.inputBuffer == "ac" && r.cursorPosition == 1
  {
    var twice := EditKey(EditKey(w, Plain(Left)), Plain(Left));
    assert twice.inputBuffer == "abc" && twice.cursorPosition == 1;
    assert RemoveAt("abc", 1) == "ac";
  }

  /** Command mode is a sticky flag, not a function of the line: a line
      that starts with '/' can be outside command mode, and a line that does
      not can be inside it. */
  lemma CommandModeIsSticky(v: AppView)
    requires v.inputBuffer == [] && v.cursorPosition == 0 && !v.isCommandMode
    ensures var typedAfter := EditKey(EditKey(v, Plain(Char('a'))), Plain(Home));
            var r := EditKey(typedAfter, Plain(Char('/')));
      r.inputBuffer == "/a" && !r.isCommandMode
    ensures var typedFirst := EditKey(EditKey(v, Plain(Char('/'))), Plain(Char('a')));
            var r := EditKey(EditKey(typedFirst, Plain(Home)), Plain(Delete));
      r.inputBuffer == "a" && r.isCommandMode
  {
    var t := EditKey(EditKey(v, Plain(Char('/'))), Plain(Char('a')));
    assert t.inputBuffer == "/a";
  }
}
