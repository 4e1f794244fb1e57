/**
 * The state of the dialog's controls: the name entry, the "Apply this
 * action to all files" checkbox, the Rename and Replace buttons, the rename
 * expander and the default response, and how the signal callbacks change it.
 *
 * Each callback is a function from the state before to the state after;
 * the class in ConflictDialog is proved against these functions. The
 * toolkit's part is modelled too: setting the entry's text notifies
 * `entry_text_changed_cb` only when the text actually changes, and a user
 * can only reach a widget that is sensitive.
 */
module ConflictControls {
  import opened Wrappers

  /** The responses the dialog's buttons report. */
  datatype Response = Cancel | Skip | Rename | Replace

  datatype Controls = Controls(
    entryText: string,
    conflictName: Option<string>,  // None until the file information has arrived
    applyToAll: bool,              // the checkbox is active
    checkboxSensitive: bool,
    expanderSensitive: bool,
    renameSensitive: bool,
    renameVisible: bool,
    replaceVisible: bool,
    defaultResponse: Option<Response>)

  /**
   * The entry holds a name worth renaming to: it is not empty and differs
   * from the conflicting name (any text differs from a missing name).
   */
  predicate OffersRename(text: string, conflictName: Option<string>)
  {
    text != "" && conflictName != Some(text)
  }

  /**
   * The controls as the dialog's initialisation leaves them: empty entry,
   * checkbox off, Rename hidden, Replace shown, no default response.
   */
  function Initial(): Controls
  {
    Controls(
      entryText := "",
      conflictName := None,
      applyToAll := false,
      checkboxSensitive := true,
      expanderSensitive := true,
      renameSensitive := true,
      renameVisible := false,
      replaceVisible := true,
      defaultResponse := None)
  }

  /**
   * `entry_text_changed_cb`: offer Rename for a new name, Replace otherwise.
   * Exactly one of the two is visible afterwards, the checkbox can be used
   * only when Rename is not offered, and the default response follows the
   * visible button. Nothing else changes.
   */
  function EntryTextChanged(s: Controls): (r: Controls)
    ensures r.renameVisible != r.replaceVisible
    ensures r.renameVisible <==> OffersRename(s.entryText, s.conflictName)
    ensures r.checkboxSensitive == !r.renameVisible
    ensures r.defaultResponse == Some(if r.renameVisible then Rename else Replace)
    ensures r == s.(renameVisible := r.renameVisible, replaceVisible := r.replaceVisible,
                    checkboxSensitive := r.checkboxSensitive, defaultResponse := r.defaultResponse)
  {
    if OffersRename(s.entryText, s.conflictName) then
      s.(replaceVisible := false, renameVisible := true,
         checkboxSensitive := false, defaultResponse := Some(Rename))
    else
      s.(renameVisible := false, replaceVisible := true,
         checkboxSensitive := true, defaultResponse := Some(Replace))
  }

  /**
   * `checkbox_toggled_cb`, called once the checkbox has its new state: the
   * rename expander and button are usable exactly when "apply to all" is
   * off, and Rename is shown only when it is off and the entry offers a new
   * name. Exactly one of Rename and Replace is visible afterwards.
   */
  function CheckboxToggled(s: Controls): (r: Controls)
    ensures r.expanderSensitive == r.renameSensitive == !s.applyToAll
    ensures r.renameVisible != r.replaceVisible
    ensures r.renameVisible <==> !s.applyToAll && OffersRename(s.entryText, s.conflictName)
    ensures r == s.(expanderSensitive := r.expanderSensitive, renameSensitive := r.renameSensitive,
                    renameVisible := r.renameVisible, replaceVisible := r.replaceVisible)
  {
    var s := s.(expanderSensitive := !s.applyToAll, renameSensitive := !s.applyToAll);
    if !s.applyToAll && OffersRename(s.entryText, s.conflictName) then
      s.(replaceVisible := false, renameVisible := true)
    else
      s.(renameVisible := false, replaceVisible := true)
  }

  /**
   * Setting the entry's text; the change callback runs only on a real
   * change. The entry ends up holding the text, an unchanged text leaves
   * every control as it was, and otherwise only the buttons, the checkbox's
   * sensitivity and the default response follow the new text.
   */
  function SetEntryText(s: Controls, text: string): (r: Controls)
    ensures r.entryText == text
    ensures text == s.entryText ==> r == s
    ensures text != s.entryText ==>
              (r.renameVisible <==> OffersRename(text, s.conflictName))
    ensures r == s.(entryText := text, renameVisible := r.renameVisible,
                    replaceVisible := r.replaceVisible, checkboxSensitive := r.checkboxSensitive,
                    defaultResponse := r.defaultResponse)
  {
    if text == s.entryText then s else EntryTextChanged(s.(entryText := text))
  }

  /**
   * `reset_button_clicked_cb`: put the conflicting name back into the entry.
   * Before the file information has arrived there is no name, and the
   * toolkit refuses to set a missing text. With a name, the entry holds it
   * afterwards, and only what setting the text touches can change.
   */
  function ResetClicked(s: Controls): (r: Controls)
    ensures s.conflictName.None? ==> r == s
    ensures s.conflictName.Some? ==> r == SetEntryText(s, s.conflictName.value)
    ensures s.conflictName.Some? ==> r.entryText == s.conflictName.value
    ensures r.conflictName == s.conflictName && r.applyToAll == s.applyToAll
    ensures r.expanderSensitive == s.expanderSensitive && r.renameSensitive == s.renameSensitive
  {
    match s.conflictName
    case None => s
    case Some(name) => SetEntryText(s, name)
  }

  /**
   * The part of `file_list_ready_cb` that concerns the controls, as the
   * source has it: remember the destination's edit name as the conflicting
   * name and put it into the entry. When the entry held another text, the
   * buttons follow and Replace is offered; when it already held the edit
   * name, nothing but the conflicting name changes, whatever the buttons
   * showed.
   */
  function PopulateAsWritten(s: Controls, editName: string): (r: Controls)
    ensures r.entryText == editName && r.conflictName == Some(editName)
    ensures s.entryText != editName ==>
              r.replaceVisible && !r.renameVisible && r.checkboxSensitive &&
              r.defaultResponse == Some(Replace)
    ensures s.entryText == editName ==> r == s.(conflictName := Some(editName))
    ensures r.applyToAll == s.applyToAll
    ensures r.expanderSensitive == s.expanderSensitive && r.renameSensitive == s.renameSensitive
  {
    SetEntryText(s.(conflictName := Some(editName)), editName)
  }

  /**
   * The same step with the buttons brought in line with the new conflicting
   * name even when the entry already held that text.
   */
  function Populate(s: Controls, editName: string): (r: Controls)
    ensures r.entryText == editName && r.conflictName == Some(editName)
    ensures r.replaceVisible && !r.renameVisible && r.checkboxSensitive
    ensures r.defaultResponse == Some(Replace)
    ensures r.applyToAll == s.applyToAll
    ensures r.expanderSensitive == s.expanderSensitive && r.renameSensitive == s.renameSensitive
    ensures r == s.(entryText := editName, conflictName := Some(editName),
                    renameVisible := false, replaceVisible := true,
                    checkboxSensitive := true, defaultResponse := Some(Replace))
  {
    EntryTextChanged(s.(conflictName := Some(editName), entryText := editName))
  }

  /**
   * What can happen to the controls: the user edits the entry, clicks the
   * checkbox or the Reset button, or the file information arrives. The
   * toolkit delivers a user action only to a sensitive widget; the entry and
   * the Reset button sit inside the rename expander.
   */
  datatype Event = Edit(text: string) | ClickCheckbox | ClickReset | FileInfoReady(editName: string)

  /**
   * One event, with the corrected populate step. An action on an
   * insensitive widget changes nothing; clicking the usable checkbox flips
   * "apply to all"; an edit that reaches the entry leaves its text there;
   * and no user action changes the conflicting name.
   */
  function Step(s: Controls, e: Event): (r: Controls)
    ensures (e.Edit? || e.ClickReset?) && !s.expanderSensitive ==> r == s
    ensures e.ClickCheckbox? && !s.checkboxSensitive ==> r == s
    ensures e.ClickCheckbox? && s.checkboxSensitive ==> r.applyToAll == !s.applyToAll
    ensures e.Edit? && s.expanderSensitive ==> r.entryText == e.text
    ensures !e.ClickCheckbox? ==> r.applyToAll == s.applyToAll
    ensures !e.FileInfoReady? ==> r.conflictName == s.conflictName
  {
    match e
    case Edit(text) => if s.expanderSensitive then SetEntryText(s, text) else s
    case ClickCheckbox =>
      if s.checkboxSensitive then CheckboxToggled(s.(applyToAll := !s.applyToAll)) else s
    case ClickReset => if s.expanderSensitive then ResetClicked(s) else s
    case FileInfoReady(editName) => Populate(s, editName)
  }

  function Run(s: Controls, events: seq<Event>): Controls
    decreases |events|
  {
    if events == [] then s else Run(Step(s, events[0]), events[1..])
  }

  /**
   * What holds of the controls at every point of the dialog's life:
   * exactly one of Rename and Replace is visible; the rename affordances are
   * usable exactly when "apply to all" is off; Rename is visible exactly
   * when the entry offers a new name; the checkbox is usable exactly when
   * Rename is not offered; the default response is Rename exactly when Rename
   * is visible; and "apply to all" never goes together with Rename.
   */
  ghost predicate Consistent(s: Controls)
  {
    && s.renameVisible != s.replaceVisible
    && s.expanderSensitive == !s.applyToAll
    && s.renameSensitive == !s.applyToAll
    && (s.renameVisible <==> OffersRename(s.entryText, s.conflictName))
    && s.checkboxSensitive == !s.renameVisible
    && (s.defaultResponse == Some(Rename) <==> s.renameVisible)
    && (s.applyToAll ==> !s.renameVisible)
  }

  lemma InitialConsistent()
    ensures Consistent(Initial())
  {
  }

  /** Every callback the toolkit can deliver keeps the controls consistent. */
  lemma StepConsistent(s: Controls, e: Event)
    requires Consistent(s)
    ensures Consistent(Step(s, e))
  {
    match e
    case Edit(text) =>
    case ClickCheckbox =>
      if s.checkboxSensitive {
        // The checkbox is usable only while the entry offers no new name.
        assert !OffersRename(s.entryText, s.conflictName);
      }
    case ClickReset =>
    case FileInfoReady(editName) =>
  }

  lemma {:induction false} RunConsistent(s: Controls, events: seq<Event>)
    requires Consistent(s)
    ensures Consistent(Run(s, events))
    decreases |events|
  {
    if events != [] {
      StepConsistent(s, events[0]);
      RunConsistent(Step(s, events[0]), events[1..]);
    }
  }

  /**
   * After any sequence of events: exactly one of Rename and Replace is
   * visible; Rename is offered only for a non-empty name that differs from
   * the conflicting one; and "apply to all" excludes a custom name, both
   * ways: while it is on, Rename is hidden and unusable, and while Rename is
   * offered, the checkbox cannot be turned on.
   */
  lemma ReachableControls(events: seq<Event>)
    ensures var s := Run(Initial(), events);
      && s.renameVisible != s.replaceVisible
      && (s.renameVisible ==> s.entryText != "" && s.conflictName != Some(s.entryText))
      && (s.applyToAll ==> !s.renameVisible && !s.renameSensitive && !s.expanderSensitive)
      && (s.renameVisible ==> !s.checkboxSensitive && s.defaultResponse == Some(Rename))
  {
    InitialConsistent();
    RunConsistent(Initial(), events);
  }

  /**
   * Reset puts the conflicting name back, and that brings the dialog back to
   * offering Replace with the checkbox usable.
   */
  lemma ResetLeadsToReplace(s: Controls, name: string)
    requires Consistent(s) && s.conflictName == Some(name)
    ensures ResetClicked(s).entryText == name
    ensures ResetClicked(s).replaceVisible && !ResetClicked(s).renameVisible
    ensures ResetClicked(s).checkboxSensitive
  {
  }

  /**
   * The source's version of the populate step breaks the invariant when the
   * user has already typed the destination's edit name before the file
   * information arrived: Rename stays offered for the original name.
   */
  lemma PopulateAsWrittenKeepsStaleRename()
    ensures var s := PopulateAsWritten(Step(Initial(), Edit("a.txt")), "a.txt");
      && s.renameVisible && s.conflictName == Some(s.entryText) && !Consistent(s)
      && Step(s, ClickReset).renameVisible
  {
  }

  /** The two versions differ only when the entry already holds the edit name. */
  lemma PopulateAgreesOnNewText(s: Controls, editName: string)
    requires s.entryText != editName
    ensures PopulateAsWritten(s, editName) == Populate(s, editName)
  {
  }

  /** One event, with the populate step as the source writes it. */
  function StepAsWritten(s: Controls, e: Event): Controls
  {
    match e
    case FileInfoReady(editName) => PopulateAsWritten(s, editName)
    case _ => Step(s, e)
  }

  function RunAsWritten(s: Controls, events: seq<Event>): Controls
    decreases |events|
  {
    if events == [] then s else RunAsWritten(StepAsWritten(s, events[0]), events[1..])
  }

  /**
   * What the dialog as written still keeps: Consistent, except that a
   * visible Rename need no longer mean a name different from the
   * conflicting one; it still means a non-empty entry, and an entry that
   * offers a new name still shows Rename.
   */
  ghost predicate ConsistentAsWritten(s: Controls)
  {
    && s.renameVisible != s.replaceVisible
    && s.expanderSensitive == !s.applyToAll
    && s.renameSensitive == !s.applyToAll
    && (OffersRename(s.entryText, s.conflictName) ==> s.renameVisible)
    && (s.renameVisible ==> s.entryText != "")
    && s.checkboxSensitive == !s.renameVisible
    && (s.defaultResponse == Some(Rename) <==> s.renameVisible)
    && (s.applyToAll ==> !s.renameVisible)
  }

  lemma StepAsWrittenConsistent(s: Controls, e: Event)
    requires ConsistentAsWritten(s)
    ensures ConsistentAsWritten(StepAsWritten(s, e))
  {
    match e
    case ClickCheckbox =>
      if s.checkboxSensitive {
        assert !OffersRename(s.entryText, s.conflictName);
      }
    case _ =>
  }

  lemma {:induction false} RunAsWrittenConsistent(s: Controls, events: seq<Event>)
    requires ConsistentAsWritten(s)
    ensures ConsistentAsWritten(RunAsWritten(s, events))
    decreases |events|
  {
    if events != [] {
      StepAsWrittenConsistent(s, events[0]);
      RunAsWrittenConsistent(StepAsWritten(s, events[0]), events[1..]);
    }
  }

  /**
   * The dialog as written, after any sequence of events from the initial
   * state: exactly one of Rename and Replace is visible, "apply to all"
   * hides Rename, a visible Rename means a non-empty entry, the checkbox is
   * usable exactly when Rename is hidden, and the default is Rename exactly
   * when Rename is visible. Only "Rename's name differs from the
   * conflicting name" is lost, as PopulateAsWrittenKeepsStaleRename shows.
   */
  lemma ReachableControlsAsWritten(events: seq<Event>)
    ensures var s := RunAsWritten(Initial(), events);
      && s.renameVisible != s.replaceVisible
      && (s.applyToAll ==> !s.renameVisible && !s.renameSensitive && !s.expanderSensitive)
      && (s.renameVisible ==> s.entryText != "")
      && s.checkboxSensitive == !s.renameVisible
      && (s.defaultResponse == Some(Rename) <==> s.renameVisible)
  {
    RunAsWrittenConsistent(Initial(), events);
  }
}
