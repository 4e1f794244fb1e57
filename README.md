# Peony file-conflict dialog, modelled in Dafny

Peony is a desktop file manager. When a copy or move finds that the destination
already exists, it asks the user through the file-conflict dialog: Skip, Replace
(relabelled "Merge" for two folders), or Rename to a new name typed into an entry,
optionally with "Apply this action to all files". This project models the decision
logic of that dialog (`libpeony-private/peony-file-conflict-dialog.c`) without the
toolkit:

- `ConflictText` (pure): how `file_list_ready_cb` classifies a conflict from the two
  is-directory flags, the two modification times, the MIME-type match, the binary
  flags and whether meld is installed, and the texts it builds. These are the
  headline ("Merge folder", "Replace folder", "Replace file"), the message with its
  age word ("An older", "A newer", "Another" or none), the extra sentence, the two
  info blocks, the "Merge" relabelling and the Differences button.
- `TextLines`: splitting a label into lines and joining lines. The layout of the
  labels is stated through it.
- `ConflictControls` (pure specification): the state of the entry, checkbox,
  expander, Rename/Replace buttons and default response. It has one function per
  callback (`entry_text_changed_cb`, `checkbox_toggled_cb`, `reset_button_clicked_cb`
  and the entry part of `file_list_ready_cb`) and the toolkit's delivery of user
  actions. It also has an invariant, `Consistent`, proved to hold after every
  sequence of events when the populate step is the corrected one from "## Findings".
  Beside that runs the machine as the source writes it (`StepAsWritten`,
  `RunAsWritten`), with the weaker invariant `ConsistentAsWritten` that it still keeps.
- `ConflictDialog` (imperative): the dialog as a class whose fields are the controls
  and the label texts. Its methods mirror the callbacks, the initialisation and the
  two getters, and each is proved against the functions above.

The translated strings are modelled by their untranslated text, with every `%s`
replaced by a concatenation. A long sentence is written as a concatenation of short
pieces. The text is the same.

The age word follows the code, not intuition. It describes the existing
destination, so a source newer than the destination produces "An older … already
exists" (lines 160-170 and 197-207).

Two facts about the toolkit are modelled explicitly. `gtk_entry_set_text` notifies
the change callback only when the text really changes. A user action reaches only a
sensitive widget, and the entry and the Reset button sit inside the rename
expander. Before the file information arrives, `conflict_name` is NULL, which is
modelled as `None`. `g_strcmp0` treats any text as different from NULL.

## Model

| member | source | states |
|---|---|---|
| `ConflictText.PrimaryTextChoice` | libpeony-private/peony-file-conflict-dialog.c:147-215 | the headline starts "Merge folder" exactly when both sides are folders, "Replace folder" exactly when only the destination is, and "Replace file" exactly when the destination is not a folder, a folder replacing a file included |
| `ConflictText.MessageWording` | libpeony-private/peony-file-conflict-dialog.c:160-214 | outside the file-onto-folder case the message starts "An older" / "A newer" / "Another" exactly when the source's mtime is greater than / less than / equal to the destination's; it starts "A folder with the same name" exactly in the file-onto-folder case, whatever the times |
| `ConflictText.MessageSingleLine` | libpeony-private/peony-file-conflict-dialog.c:160-214 | the message holds no line break when the folder's name holds none |
| `ConflictText.MessageExtraSingleLine` | libpeony-private/peony-file-conflict-dialog.c:156-195 | each of the three extra sentences is a single line |
| `ConflictText.SecondaryTextLines` | libpeony-private/peony-file-conflict-dialog.c:217 | the secondary label is exactly two lines, the branch's message and then its extra sentence |
| `ConflictText.InfoBlockLines` | libpeony-private/peony-file-conflict-dialog.c:308-317 | an info block read line by line is the bold header, "Size: …", "Type: …" only when the type is shown, and "Last modified: …", in that order and nothing else |
| `ConflictText.InfoBlocksLines` | libpeony-private/peony-file-conflict-dialog.c:297-350 | the "Original file" block describes the destination and the "Replace with" block the source, both in that line layout, with the same choice of Type line |
| `ConflictText.TypeLineInBothBlocks` | libpeony-private/peony-file-conflict-dialog.c:303-350 | both blocks have four lines with "Type: …" third exactly when the source is not of the destination's MIME type, and three lines otherwise |
| `ConflictText.DiffButtonShown` | libpeony-private/peony-file-conflict-dialog.c:379-394 | the Differences button is shown exactly when neither side is a folder, meld is found and neither file is binary; it is never shown with a folder headline |
| `ConflictControls.EntryTextChanged` | libpeony-private/peony-file-conflict-dialog.c:440-472 | Rename is visible exactly when the text is non-empty and differs from the conflicting name. Exactly one of Rename and Replace is visible. The checkbox is usable exactly when Rename is hidden. The default response follows the visible button. No other control changes |
| `ConflictControls.CheckboxToggled` | libpeony-private/peony-file-conflict-dialog.c:498-525 | the expander and Rename are sensitive exactly when the checkbox is off. Rename is visible exactly when the checkbox is off and the text offers a new name. Exactly one of Rename and Replace is visible. Nothing else changes |
| `ConflictControls.SetEntryText` | libpeony-private/peony-file-conflict-dialog.c:536-537 | `gtk_entry_set_text`, as used at lines 368 and 536: the entry holds the new text; an unchanged text changes nothing at all; otherwise Rename is visible exactly when the new text offers a new name, and only the buttons, the checkbox's sensitivity and the default response change besides the text |
| `ConflictControls.ResetClicked` | libpeony-private/peony-file-conflict-dialog.c:527-544 | with no conflicting name yet nothing changes; with one, the entry's text is set to it, and the conflicting name, "apply to all" and the expander's and Rename's sensitivity are kept |
| `ConflictControls.PopulateAsWritten` | libpeony-private/peony-file-conflict-dialog.c:364-368 | the populate step as written: the edit name becomes the entry text and the conflicting name; from another text Replace is offered with the checkbox usable; from the same text only the conflicting name changes, whatever the buttons show |
| `ConflictControls.Step` | libpeony-private/peony-file-conflict-dialog.c:648-669 | the toolkit's delivery: an edit or Reset while the expander is insensitive, or a click on the insensitive checkbox, changes nothing; a click on the usable checkbox flips "apply to all"; an edit that reaches the entry leaves its text there; no user action changes the conflicting name |
| `ConflictControls.Populate` | libpeony-private/peony-file-conflict-dialog.c:364-368 | the corrected populate step of "## Findings": after the file information arrives, the edit name is both the entry text and the conflicting name. Replace is offered, the checkbox is usable and the default response is Replace. The checkbox and the sensitivity of the expander and of Rename are kept, and nothing else changes |
| `ConflictControls.InitialConsistent` | libpeony-private/peony-file-conflict-dialog.c:685-712 | the state after line 706 (Rename hidden, Replace shown, checkbox off and usable) satisfies the dialog's invariant; the show-all at line 719 is not modelled (see "## Left out") |
| `ConflictControls.StepConsistent` | libpeony-private/peony-file-conflict-dialog.c:440-544 | every user action the toolkit can deliver, and the arrival of the file information with the corrected populate step of "## Findings", preserves the invariant |
| `ConflictControls.RunConsistent` | libpeony-private/peony-file-conflict-dialog.c:440-544 | the invariant holds after any sequence of those events, with the corrected populate step |
| `ConflictControls.ReachableControls` | libpeony-private/peony-file-conflict-dialog.c:451-524 | for the dialog with the corrected populate step: after any sequence of events from the initial state, exactly one of Rename and Replace is visible. Rename is offered only for a non-empty name that differs from the conflicting one. While "apply to all" is on, Rename is hidden and unusable. While Rename is offered, the checkbox cannot be turned on and the default is Rename |
| `ConflictControls.ResetLeadsToReplace` | libpeony-private/peony-file-conflict-dialog.c:527-544 | Reset puts the conflicting name back into the entry, which leaves Replace offered and the checkbox usable |
| `ConflictControls.PopulateAsWrittenKeepsStaleRename` | libpeony-private/peony-file-conflict-dialog.c:364-368 | as written, a name typed before the file information arrives that equals the edit name leaves Rename offered with the original name, violating the invariant; clicking Reset then still leaves Rename offered |
| `ConflictControls.PopulateAgreesOnNewText` | libpeony-private/peony-file-conflict-dialog.c:364-368 | the corrected populate step differs from the code only when the entry already holds the edit name |
| `ConflictControls.StepAsWrittenConsistent` | libpeony-private/peony-file-conflict-dialog.c:364-544 | with the populate step as written, every event preserves the weaker invariant `ConsistentAsWritten`: `Consistent` without "a visible Rename offers a name different from the conflicting one" |
| `ConflictControls.RunAsWrittenConsistent` | libpeony-private/peony-file-conflict-dialog.c:364-544 | with the populate step as written, the weaker invariant holds after any sequence of events |
| `ConflictControls.ReachableControlsAsWritten` | libpeony-private/peony-file-conflict-dialog.c:364-544 | for the dialog as written, after any sequence of events: exactly one of Rename and Replace is visible, "apply to all" hides Rename and makes it and the expander unusable, a visible Rename means a non-empty entry, the checkbox is usable exactly when Rename is hidden, and the default is Rename exactly when Rename is visible |
| `ConflictDialog.FileConflictDialog.constructor` | libpeony-private/peony-file-conflict-dialog.c:677-712 | initialisation up to line 706 (the show-all at line 719 is not modelled): the Differences button is hidden, Rename is hidden, Replace is shown and labelled "Replace", the checkbox is off and the controls are consistent |
| `ConflictDialog.FileConflictDialog.EntryTextChanged` | libpeony-private/peony-file-conflict-dialog.c:440-472 | updates the fields exactly as the entry-changed function says; exactly one button is visible afterwards |
| `ConflictDialog.FileConflictDialog.SetEntryText` | libpeony-private/peony-file-conflict-dialog.c:536-537 | sets the entry's text and runs the change callback only when the text changes |
| `ConflictDialog.FileConflictDialog.CheckboxToggled` | libpeony-private/peony-file-conflict-dialog.c:498-525 | updates the fields exactly as the toggle function says; exactly one button is visible afterwards |
| `ConflictDialog.FileConflictDialog.ResetButtonClicked` | libpeony-private/peony-file-conflict-dialog.c:527-544 | restores the conflicting name. From a consistent state this leaves Replace visible and Rename hidden |
| `ConflictDialog.FileConflictDialog.Deliver` | libpeony-private/peony-file-conflict-dialog.c:651-693 | a user action on the entry, checkbox or Reset button changes the fields as the step function says, and keeps them consistent |
| `ConflictDialog.FileConflictDialog.ShowTexts` | libpeony-private/peony-file-conflict-dialog.c:147-362 | the headline, secondary label and both info blocks are the texts of the classification |
| `ConflictDialog.FileConflictDialog.PopulateEntry` | libpeony-private/peony-file-conflict-dialog.c:364-368 | the corrected populate step of "## Findings": the edit name becomes the conflicting name and the entry text, the buttons always follow, and consistency is kept |
| `ConflictDialog.FileConflictDialog.PopulateEntryAsWritten` | libpeony-private/peony-file-conflict-dialog.c:364-368 | the populate step as written: stores the conflicting name and sets the entry's text, changing the fields as `PopulateAsWritten` says and keeping the weaker invariant |
| `ConflictDialog.FileConflictDialog.ShowButtons` | libpeony-private/peony-file-conflict-dialog.c:370-394 | the replace button is relabelled "Merge" exactly when both sides are folders. The Differences button is hidden first, then shown only under the conditions of `DiffButtonShown` |
| `ConflictDialog.FileConflictDialog.FileListReady` | libpeony-private/peony-file-conflict-dialog.c:101-403 | the whole callback with the corrected populate step of "## Findings": texts, entry and buttons as above, with the controls kept consistent |
| `ConflictDialog.FileConflictDialog.GetNewName` | libpeony-private/peony-file-conflict-dialog.c:762-767 | returns the entry's text unchanged |
| `ConflictDialog.FileConflictDialog.GetApplyToAll` | libpeony-private/peony-file-conflict-dialog.c:769-774 | returns the checkbox's state unchanged |

## Findings

| source | as written | input that shows it | evidently intended | confidence | as-written member | corrected member |
|---|---|---|---|---|---|---|
| libpeony-private/peony-file-conflict-dialog.c:364-368 | stores the edit name as `conflict_name` and sets it as the entry's text. The Rename/Replace buttons are left to the entry's change callback, which the toolkit does not run when the text is unchanged | before the file information arrives (no conflicting name yet), the user types `a.txt`, so Rename is offered. The destination's edit name then turns out to be `a.txt`. Rename stays offered, the checkbox stays unusable and the default stays Rename, for a "new" name equal to the original. Reset cannot repair it, because line 536 sets the text the entry already holds | the buttons are re-evaluated against the new conflicting name, so Replace is offered | low, not executed. It needs input typed before the asynchronous file information arrives, and it relies on the toolkit skipping the notification for an unchanged text | `ConflictControls.PopulateAsWritten` (witness `ConflictControls.PopulateAsWrittenKeepsStaleRename`) | `ConflictControls.Populate` |

## Left out

- Widget construction, layout, fonts and styling (lines 220-295 and 585-720, apart from the button states) are presentation only.
- The final `gtk_widget_show_all` over the content area in the initialisation (line 719) is not modelled. It shows the Differences button again, since that button sits in the content area (lines 602, 618 and 682), and it most likely shows Rename again too, since GTK packs the dialog's action area inside the content area. So until the file information arrives, the real dialog shows the Differences button and both Rename and Replace, which the model's initial state does not capture. The model starts from the state after the hide call at line 706. `file_list_ready_cb` then hides the Differences button (line 379) and sets every one of these controls again.
- Icons (`file_icons_changed`, the pixbufs in `file_list_ready_cb`) call into the toolkit.
- The asynchronous fetch of the file information, the change monitors and signal handlers, and the teardown in `do_finalize` are I/O and resource plumbing. The model has `FileListReady` arrive as an event at any point.
- Launching meld (`diff_button_clicked_cb`) spawns a process. Whether meld is on the path is a boolean input.
- `peony_file_is_mime_type`, `peony_file_is_binary`, the mtimes and the size, type and date strings are inputs, one `FileInfo` per side, plus a MIME-match flag.
- `expander_activated_cb` and the focus and selection in `reset_button_clicked_cb` (`eel_filename_get_rename_region`) only move keyboard focus and selection.
- Translation through gettext is left out. The strings are the untranslated texts, and the info blocks are not parsed as Pango markup. Names are not escaped in the source, and that is not modelled.
- Which response the caller receives when a button is pressed, and what the caller does with it, happen outside this file.
- ConflictText.SecondaryTextLines: holds only when the destination folder's display name holds no line break. A name with a line break really does add lines to the label.
- ConflictText.InfoBlockLines: holds only when the header and the size, type and date strings hold no line break. The same condition applies to ConflictText.InfoBlocksLines and ConflictText.TypeLineInBothBlocks.
- `src/peony-desktop-window.c` (window-manager integration of the desktop window) and `src/peony-application.cpp` (a plugin-loading harness) are not part of this model.
