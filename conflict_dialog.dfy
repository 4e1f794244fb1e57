/**
 * The file-conflict dialog as an object whose callbacks update its fields
 * in place. Each method is proved against the functions of ConflictText
 * and ConflictControls, where the properties of the dialog are proved.
 */
module ConflictDialog {
  import opened Wrappers
  import opened ConflictText
  import ConflictControls

  /** The two labels the replace button can carry. */
  datatype ReplaceLabel = ReplaceText | MergeText

  class FileConflictDialog {
    // The controls.
    var entryText: string
    var conflictName: Option<string>
    var applyToAll: bool
    var checkboxSensitive: bool
    var expanderSensitive: bool
    var renameSensitive: bool
    var renameVisible: bool
    var replaceVisible: bool
    var defaultResponse: Option<ConflictControls.Response>
    var replaceLabel: ReplaceLabel
    var diffVisible: bool

    // The texts shown once the file information has arrived.
    var primaryText: string
    var secondaryText: string
    var originalFileInfo: string
    var replaceWithInfo: string

    /** The controls as a value. */
    function State(): ConflictControls.Controls
      reads this
    {
      ConflictControls.Controls(
        entryText, conflictName, applyToAll, checkboxSensitive, expanderSensitive,
        renameSensitive, renameVisible, replaceVisible, defaultResponse)
    }

    ghost predicate Valid()
      reads this
    {
      ConflictControls.Consistent(State())
    }

    /**
     * `peony_file_conflict_dialog_init`: Rename hidden, Replace shown and
     * labelled "Replace", the Differences button hidden, nothing to show yet.
     */
    constructor ()
      ensures State() == ConflictControls.Initial() && Valid()
      ensures replaceLabel == ReplaceText && !diffVisible
      ensures primaryText == secondaryText == originalFileInfo == replaceWithInfo == ""
    {
      entryText, conflictName := "", None;
      applyToAll := false;
      checkboxSensitive, expanderSensitive, renameSensitive := true, true, true;
      diffVisible := false;
      renameVisible := false;
      replaceVisible := true;
      replaceLabel := ReplaceText;
      defaultResponse := None;
      primaryText, secondaryText, originalFileInfo, replaceWithInfo := "", "", "", "";
    }

    /** `entry_text_changed_cb`. */
    method EntryTextChanged()
      modifies this`renameVisible, this`replaceVisible, this`checkboxSensitive, this`defaultResponse
      ensures State() == ConflictControls.EntryTextChanged(old(State()))
      ensures renameVisible != replaceVisible
    {
      if entryText != "" && conflictName != Some(entryText) {
        replaceVisible := false;
        renameVisible := true;
        checkboxSensitive := false;
        defaultResponse := Some(ConflictControls.Rename);
      } else {
        renameVisible := false;
        replaceVisible := true;
        checkboxSensitive := true;
        defaultResponse := Some(ConflictControls.Replace);
      }
    }

    /** Setting the entry's text, which notifies the change callback on a real change. */
    method SetEntryText(text: string)
      modifies this`entryText, this`renameVisible, this`replaceVisible, this`checkboxSensitive,
               this`defaultResponse
      ensures State() == ConflictControls.SetEntryText(old(State()), text)
      ensures entryText == text
    {
      if text != entryText {
        entryText := text;
        EntryTextChanged();
      }
    }

    /** `checkbox_toggled_cb`, with the checkbox already in its new state. */
    method CheckboxToggled()
      modifies this`expanderSensitive, this`renameSensitive, this`renameVisible, this`replaceVisible
      ensures State() == ConflictControls.CheckboxToggled(old(State()))
      ensures renameVisible != replaceVisible
    {
      expanderSensitive := !applyToAll;
      renameSensitive := !applyToAll;
      if !applyToAll && entryText != "" && conflictName != Some(entryText) {
        replaceVisible := false;
        renameVisible := true;
      } else {
        renameVisible := false;
        replaceVisible := true;
      }
    }

    /** `reset_button_clicked_cb`: put the conflicting name back into the entry. */
    method ResetButtonClicked()
      modifies this`entryText, this`renameVisible, this`replaceVisible, this`checkboxSensitive,
               this`defaultResponse
      ensures State() == ConflictControls.ResetClicked(old(State()))
      ensures old(Valid()) && old(conflictName).Some? ==>
                entryText == old(conflictName).value && replaceVisible && !renameVisible
    {
      if conflictName.Some? {
        SetEntryText(conflictName.value);
      }
      ghost var s := old(State());
      if s.conflictName.Some? && ConflictControls.Consistent(s) {
        ConflictControls.ResetLeadsToReplace(s, s.conflictName.value);
      }
    }

    /**
     * A user action delivered by the toolkit (the file information arriving
     * is handled by FileListReady). The controls stay consistent.
     */
    method Deliver(e: ConflictControls.Event)
      requires !e.FileInfoReady?
      modifies this`entryText, this`applyToAll, this`checkboxSensitive, this`expanderSensitive,
               this`renameSensitive, this`renameVisible, this`replaceVisible, this`defaultResponse
      ensures State() == ConflictControls.Step(old(State()), e)
      ensures old(Valid()) ==> Valid()
    {
      match e
      case Edit(text) =>
        if expanderSensitive {
          SetEntryText(text);
        }
      case ClickCheckbox =>
        if checkboxSensitive {
          applyToAll := !applyToAll;
          CheckboxToggled();
        }
      case ClickReset =>
        if expanderSensitive {
          ResetButtonClicked();
        }
      ghost var s := old(State());
      if ConflictControls.Consistent(s) {
        ConflictControls.StepConsistent(s, e);
      }
    }

    /** The labels `file_list_ready_cb` fills in. */
    method ShowTexts(c: Conflict)
      modifies this`primaryText, this`secondaryText, this`originalFileInfo, this`replaceWithInfo
      ensures primaryText == PrimaryText(c) && secondaryText == SecondaryText(c)
      ensures originalFileInfo == OriginalFileInfo(c) && replaceWithInfo == ReplaceWithInfo(c)
    {
      primaryText := PrimaryText(c);
      secondaryText := SecondaryText(c);
      originalFileInfo := OriginalFileInfo(c);
      replaceWithInfo := ReplaceWithInfo(c);
    }

    /**
     * The entry part of `file_list_ready_cb`: the destination's edit name
     * becomes the conflicting name and the entry's text, and the buttons
     * are brought in line with it.
     */
    method PopulateEntry(editName: string)
      modifies this`conflictName, this`entryText, this`renameVisible, this`replaceVisible,
               this`checkboxSensitive, this`defaultResponse
      ensures State() == ConflictControls.Populate(old(State()), editName)
      ensures old(Valid()) ==> Valid()
    {
      conflictName := Some(editName);
      entryText := editName;
      EntryTextChanged();
      ghost var s := old(State());
      if ConflictControls.Consistent(s) {
        ConflictControls.StepConsistent(s, ConflictControls.FileInfoReady(editName));
      }
    }

    /**
     * The entry part of `file_list_ready_cb` as the source writes it: the
     * conflicting name is stored and the entry's text set, so the buttons
     * follow only when that text changes. The weaker invariant of the
     * as-written dialog is kept.
     */
    method PopulateEntryAsWritten(editName: string)
      modifies this`conflictName, this`entryText, this`renameVisible, this`replaceVisible,
               this`checkboxSensitive, this`defaultResponse
      ensures State() == ConflictControls.PopulateAsWritten(old(State()), editName)
      ensures old(ConflictControls.ConsistentAsWritten(State())) ==>
                ConflictControls.ConsistentAsWritten(State())
    {
      conflictName := Some(editName);
      SetEntryText(editName);
      ghost var s := old(State());
      if ConflictControls.ConsistentAsWritten(s) {
        ConflictControls.StepAsWrittenConsistent(s, ConflictControls.FileInfoReady(editName));
      }
    }

    /** The button part of `file_list_ready_cb`: the "Merge" label and the Differences button. */
    method ShowButtons(c: Conflict, meldFound: bool)
      modifies this`replaceLabel, this`diffVisible
      ensures replaceLabel == if RelabelsAsMerge(c) then MergeText else old(replaceLabel)
      ensures diffVisible == DiffButtonShown(c, meldFound)
    {
      if c.source.isDirectory && c.destination.isDirectory {
        replaceLabel := MergeText;
      }

      diffVisible := false;
      if !c.source.isDirectory && !c.destination.isDirectory {
        if meldFound {
          if !c.source.isBinary && !c.destination.isBinary {
            diffVisible := true;
          }
        }
      }
    }

    /**
     * `file_list_ready_cb`: show the headline, the message and the two info
     * blocks; put the destination's edit name into the entry; relabel the
     * replace button "Merge" when both sides are folders; and show the
     * Differences button only for two non-binary plain files when meld is
     * found. The controls end up offering Replace.
     */
    method FileListReady(c: Conflict, meldFound: bool)
      modifies this
      ensures primaryText == PrimaryText(c) && secondaryText == SecondaryText(c)
      ensures originalFileInfo == OriginalFileInfo(c) && replaceWithInfo == ReplaceWithInfo(c)
      ensures State() == ConflictControls.Populate(old(State()), c.destination.editName)
      ensures replaceLabel == if RelabelsAsMerge(c) then MergeText else old(replaceLabel)
      ensures diffVisible == DiffButtonShown(c, meldFound)
      ensures old(Valid()) ==> Valid()
    {
      ShowTexts(c);
      PopulateEntry(c.destination.editName);
      ShowButtons(c, meldFound);
    }

    /** `peony_file_conflict_dialog_get_new_name`: the entry's text. */
    method GetNewName() returns (name: string)
      ensures name == entryText
    {
      name := entryText;
    }

    /** `peony_file_conflict_dialog_get_apply_to_all`: the checkbox state. */
    method GetApplyToAll() returns (all: bool)
      ensures all == applyToAll
    {
      all := applyToAll;
    }
  }
}
