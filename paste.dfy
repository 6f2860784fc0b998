/** Pasting the dictated text (src-tauri/src/input/paste.rs): decide
    between pasting into the focused field and leaving the text on the
    clipboard, send Cmd+V, and put the previous clipboard text back. The
    clipboard and the keyboard are a `Desktop` object; the Accessibility
    API answers, the outcome of each clipboard or keyboard call and the
    sleeps are parameters (the sleeps are left out). */
module Paste {
  import opened Wrappers

  // ----------------------------------------------------- the focus probe

  datatype Platform = MacOs | OtherPlatform

  /** What the Accessibility calls of `is_text_field_focused` return: the
      system-wide element, the focused element and its role attribute are
      each obtained or not, and the role may fail to convert to a string. */
  datatype AxProbe = AxProbe(systemWide: bool, focused: bool, roleRead: bool, role: Option<string>)

  /** The roles that count as a text field. */
  const TextRoles: set<string> := {"AXTextField", "AXTextArea", "AXComboBox", "AXSearchField", "AXWebArea"}

  /** `is_text_field_focused`: always true off macOS. */
  function IsTextFieldFocused(platform: Platform, probe: AxProbe): bool
  {
    match platform
    case OtherPlatform => true
    case MacOs =>
      if !probe.systemWide then false
      else if !probe.focused then false
      else if !probe.roleRead then false
      else probe.role.Some? && probe.role.value in TextRoles
  }

  /** On macOS a text field is focused exactly when every call succeeds and
      the role is one of the five text roles; elsewhere always. */
  lemma FocusMeaning(platform: Platform, probe: AxProbe)
    ensures IsTextFieldFocused(platform, probe) <==>
              platform == OtherPlatform ||
              (probe.systemWide && probe.focused && probe.roleRead && probe.role.Some? && probe.role.value in TextRoles)
    ensures platform == MacOs && !(probe.systemWide && probe.focused && probe.roleRead) ==>
              !IsTextFieldFocused(platform, probe)
  {
  }

  /** The five roles are text fields, and a role that is not one of them
      is not. */
  lemma TextRolesListed(role: string)
    ensures IsTextFieldFocused(MacOs, AxProbe(true, true, true, Some(role))) <==>
              role == "AXTextField" || role == "AXTextArea" || role == "AXComboBox" ||
              role == "AXSearchField" || role == "AXWebArea"
  {
  }

  /** `check_accessibility_permission`: `AXIsProcessTrusted` on macOS,
      true elsewhere. */
  function CheckAccessibilityPermission(platform: Platform, trusted: bool): (r: bool)
    ensures platform == OtherPlatform ==> r
    ensures platform == MacOs ==> (r <==> trusted)
  {
    match platform
    case OtherPlatform => true
    case MacOs => trusted
  }

  // ------------------------------------------------------ the paste itself

  datatype Key = Meta | Unicode(c: char)

  datatype KeyEvent = Press(key: Key) | Click(key: Key) | Release(key: Key)

  /** Cmd+V: press Meta, click 'v', release Meta. */
  const CmdV: seq<KeyEvent> := [Press(Meta), Click(Unicode('v')), Release(Meta)]

  /** The outcome of each call that can fail: `Some(e)` fails with the
      message `e`. `read` is `get_text` failing, `write` the first
      `set_text`, `reopen` the second `Clipboard::new` failing and
      `restore` the final `set_text` or `clear` failing; the errors of the
      last three are ignored. */
  datatype Faults = Faults(open: Option<string>, read: bool, write: Option<string>, enigo: Option<string>,
                           press: Option<string>, click: Option<string>, release: Option<string>,
                           reopen: bool, restore: bool)

  /** The clipboard's text (`None` when it holds none), the keys sent and
      the result. */
  datatype Pasted = Pasted(result: Result<()>, clipboard: Option<string>, keys: seq<KeyEvent>)

  /** `!smart_paste || is_text_field_focused()`. */
  predicate ShouldAutoPaste(smartPaste: bool, focused: bool)
  {
    !smartPaste || focused
  }

  /** What the restore leaves on the clipboard: the previous text when it
      was non-empty, and nothing otherwise. */
  function Restored(previous: Option<string>): Option<string>
  {
    match previous
    case Some(p) => if p != "" then Some(p) else None
    case None => None
  }

  /** `paste_text` on a clipboard holding `clipboard`. */
  function PasteOutcome(text: string, smartPaste: bool, focused: bool, clipboard: Option<string>, f: Faults): Pasted
  {
    if f.open.Some? then Pasted(Err("Failed to access clipboard: " + f.open.value), clipboard, [])
    else if !ShouldAutoPaste(smartPaste, focused) then
      if f.write.Some? then Pasted(Err("Failed to set clipboard text: " + f.write.value), clipboard, [])
      else Pasted(Ok(()), Some(text), [])
    else AutoPasteOutcome(text, clipboard, f)
  }

  /** The auto-paste branch of `paste_text`. */
  function AutoPasteOutcome(text: string, clipboard: Option<string>, f: Faults): Pasted
  {
    var previous := if f.read then None else clipboard;
    if f.write.Some? then Pasted(Err("Failed to set clipboard text: " + f.write.value), clipboard, [])
    else if f.enigo.Some? then Pasted(Err("Failed to create enigo instance: " + f.enigo.value), Some(text), [])
    else if f.press.Some? then Pasted(Err("Failed to press Meta key: " + f.press.value), Some(text), [])
    else if f.click.Some? then Pasted(Err("Failed to click 'v' key: " + f.click.value), Some(text), CmdV[..1])
    else if f.release.Some? then Pasted(Err("Failed to release Meta key: " + f.release.value), Some(text), CmdV[..2])
    else if f.reopen || f.restore then Pasted(Ok(()), Some(text), CmdV)
    else Pasted(Ok(()), Restored(previous), CmdV)
  }

  /** A clipboard that cannot be opened fails the paste before anything
      is touched. */
  lemma OpenFailureTouchesNothing(text: string, smartPaste: bool, focused: bool, clipboard: Option<string>, f: Faults)
    requires f.open.Some?
    ensures PasteOutcome(text, smartPaste, focused, clipboard, f) ==
            Pasted(Err("Failed to access clipboard: " + f.open.value), clipboard, [])
  {
  }

  /** With smart paste on and no text field focused, the text is only put
      on the clipboard: no key is sent. */
  lemma ClipboardOnly(text: string, focused: bool, clipboard: Option<string>, f: Faults)
    requires f.open.None? && !focused
    ensures PasteOutcome(text, true, focused, clipboard, f).keys == []
    ensures f.write.None? ==> PasteOutcome(text, true, focused, clipboard, f) == Pasted(Ok(()), Some(text), [])
    ensures f.write.Some? ==>
              PasteOutcome(text, true, focused, clipboard, f).result.Err? &&
              PasteOutcome(text, true, focused, clipboard, f).clipboard == clipboard
  {
  }

  /** With smart paste off the focus does not matter: the paste is the one
      for a focused text field. */
  lemma SmartPasteOffIgnoresFocus(text: string, focused: bool, clipboard: Option<string>, f: Faults)
    ensures PasteOutcome(text, false, focused, clipboard, f) == PasteOutcome(text, true, true, clipboard, f)
  {
  }

  /** The keys sent are always a prefix of Cmd+V, and are sent only after
      the text was put on the clipboard; the paste succeeds only when all
      of Cmd+V was sent or none was needed. */
  lemma KeysAfterClipboard(text: string, smartPaste: bool, focused: bool, clipboard: Option<string>, f: Faults)
    ensures var p := PasteOutcome(text, smartPaste, focused, clipboard, f);
            p.keys == CmdV[..|p.keys|] &&
            (p.keys != [] ==> f.open.None? && f.write.None? && ShouldAutoPaste(smartPaste, focused)) &&
            (p.result.Ok? ==> (p.keys == CmdV <==> ShouldAutoPaste(smartPaste, focused)))
  {
  }

  /** A successful auto-paste puts back the previous text when it was
      non-empty and clears the clipboard otherwise, so the dictated text is
      left there only when the restore could not run. */
  lemma AutoPasteRestores(text: string, smartPaste: bool, focused: bool, clipboard: Option<string>, f: Faults)
    requires ShouldAutoPaste(smartPaste, focused)
    requires PasteOutcome(text, smartPaste, focused, clipboard, f).result.Ok?
    ensures !f.reopen && !f.restore && !f.read ==>
              PasteOutcome(text, smartPaste, focused, clipboard, f).clipboard == Restored(clipboard)
    ensures !f.reopen && !f.restore && f.read ==>
              PasteOutcome(text, smartPaste, focused, clipboard, f).clipboard == None
    ensures PasteOutcome(text, smartPaste, focused, clipboard, f).clipboard == Some(text) ==>
              f.reopen || f.restore || (!f.read && clipboard == Some(text) && text != "")
  {
  }

  /** A keystroke that fails after Meta was pressed leaves Meta pressed:
      no release is sent, and the dictated text stays on the clipboard. */
  lemma FailedClickLeavesMetaDown(text: string, smartPaste: bool, focused: bool, clipboard: Option<string>, f: Faults)
    requires f.open.None? && f.write.None? && f.enigo.None? && f.press.None? && f.click.Some?
    requires ShouldAutoPaste(smartPaste, focused)
    ensures PasteOutcome(text, smartPaste, focused, clipboard, f) ==
            Pasted(Err("Failed to click 'v' key: " + f.click.value), Some(text), [Press(Meta)])
  {
  }

  /** The clipboard and the synthetic keyboard. */
  class Desktop {
    var clipboard: Option<string>
    var keyLog: seq<KeyEvent>

    constructor(clipboard: Option<string>)
      ensures this.clipboard == clipboard && keyLog == []
    {
      this.clipboard := clipboard;
      keyLog := [];
    }

    /** `Clipboard::set_text`. */
    method SetText(text: string, fault: Option<string>) returns (r: Result<()>)
      modifies this
      ensures r == (if fault.Some? then Err(fault.value) else Ok(()))
      ensures clipboard == (if fault.Some? then old(clipboard) else Some(text)) && keyLog == old(keyLog)
    {
      if fault.Some? {
        return Err(fault.value);
      }
      clipboard := Some(text);
      r := Ok(());
    }

    /** `Clipboard::clear`. */
    method Clear()
      modifies this
      ensures clipboard == None && keyLog == old(keyLog)
    {
      clipboard := None;
    }

    /** `Enigo::key`. */
    method SendKey(event: KeyEvent, fault: Option<string>) returns (r: Result<()>)
      modifies this
      ensures r == (if fault.Some? then Err(fault.value) else Ok(()))
      ensures keyLog == (if fault.Some? then old(keyLog) else old(keyLog) + [event]) && clipboard == old(clipboard)
    {
      if fault.Some? {
        return Err(fault.value);
      }
      keyLog := keyLog + [event];
      r := Ok(());
    }
  }

  /** `paste_text`, with `focused` the answer `is_text_field_focused` would
      give (it is asked only with smart paste on). */
  method PasteText(d: Desktop, text: string, smartPaste: bool, focused: bool, f: Faults) returns (r: Result<()>)
    modifies d
    ensures r == PasteOutcome(text, smartPaste, focused, old(d.clipboard), f).result
    ensures d.clipboard == PasteOutcome(text, smartPaste, focused, old(d.clipboard), f).clipboard
    ensures d.keyLog == old(d.keyLog) + PasteOutcome(text, smartPaste, focused, old(d.clipboard), f).keys
  {
    if f.open.Some? {
      return Err("Failed to access clipboard: " + f.open.value);
    }
    var shouldAutoPaste := !smartPaste || focused;
    if shouldAutoPaste {
      r := AutoPaste(d, text, f);
      return;
    }
    var written := d.SetText(text, f.write);
    if written.Err? {
      return Err("Failed to set clipboard text: " + written.error);
    }
    r := Ok(());
  }

  /** The auto-paste branch: set the text, send Cmd+V, restore. */
  method AutoPaste(d: Desktop, text: string, f: Faults) returns (r: Result<()>)
    modifies d
    ensures r == AutoPasteOutcome(text, old(d.clipboard), f).result
    ensures d.clipboard == AutoPasteOutcome(text, old(d.clipboard), f).clipboard
    ensures d.keyLog == old(d.keyLog) + AutoPasteOutcome(text, old(d.clipboard), f).keys
  {
    var previous := if f.read then None else d.clipboard;
    var written := d.SetText(text, f.write);
    if written.Err? {
      return Err("Failed to set clipboard text: " + written.error);
    }
    if f.enigo.Some? {
      return Err("Failed to create enigo instance: " + f.enigo.value);
    }
    var key := d.SendKey(Press(Meta), f.press);
    if key.Err? {
      return Err("Failed to press Meta key: " + key.error);
    }
    key := d.SendKey(Click(Unicode('v')), f.click);
    if key.Err? {
      assert CmdV[..1] == [Press(Meta)];
      return Err("Failed to click 'v' key: " + key.error);
    }
    key := d.SendKey(Release(Meta), f.release);
    if key.Err? {
      assert CmdV[..2] == [Press(Meta), Click(Unicode('v'))];
      return Err("Failed to release Meta key: " + key.error);
    }
    RestoreClipboard(d, previous, f);
    r := Ok(());
  }

  /** Putting back the previous text, or clearing the clipboard; a failure
      of either is ignored. */
  method RestoreClipboard(d: Desktop, previous: Option<string>, f: Faults)
    modifies d
    ensures d.clipboard == if f.reopen || f.restore then old(d.clipboard) else Restored(previous)
    ensures d.keyLog == old(d.keyLog)
  {
    if f.reopen {
      return;
    }
    match previous {
      case Some(prev) =>
        if prev != "" {
          var ignored := d.SetText(prev, if f.restore then Some("") else None);
        } else if !f.restore {
          d.Clear();
        }
      case None =>
        if !f.restore {
          d.Clear();
        }
    }
  }
}
