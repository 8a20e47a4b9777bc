# Notes app: the view orchestrator and its custom elements, in Dafny

This project models the client-side core of a notes web application built
from custom elements. The parts modelled are:

- the **home view** (`src/script/view/home.js`), which owns the view mode
  and the cached note list and turns intent events (`note-save`,
  `view-change`, `note-delete`, `note-archive`, `note-click`) into calls to
  the remote notes service, followed by a full reload and re-render;
- the **note card** (`note-card.js`): six fields behind guarded setters, a
  partial `updateNote`, the `toJSON` snapshot and the events its clicks
  dispatch;
- the **section toggle** (`section-with-title.js`): the two-state
  active/archived switch that dispatches `view-change`;
- the **add-note modal** (`modal-add-note.js`): open/closed state, the
  trimmed-field validator, and the save step that dispatches `note-save`;
- the **grid container** (`notes-container.js`): three layout settings with
  validating setters and the choice of grid template.

Every element whose fields the source mutates is a Dafny `class` whose
methods state the whole new state. The render step, the endpoint choice,
the filter, the colour choice and JavaScript's `trim` are functions, each
with a contract or lemmas. Each remote call is an oracle. A handler receives what the call
answers as a parameter: a list, an envelope with a `status`, or an
exception. The `calls` field logs which endpoints were called, in order.

The model follows the code, including these behaviours a reader might not
expect:

- A successful save and a confirmed delete reload the **active** list, not
  the current mode's list.
- Rendering shows **every** cached note, whatever its `archived` flag. The
  mode filter is computed and then discarded.
- A failed reload always empties the cache, not only at start-up.
- For archive, unarchive and delete, the envelope's `status` is never read.
  Only an exception stops the reload.
- The orchestrator adopts a `view-change` mode even when it equals the
  current one. Only the section toggle guards against repeats.

Files: `notes.dfy` (modules `Wrappers` and `Notes`: shared vocabulary),
`text.dfy` (`Text`), `note_card.dfy` (`Cards`), `section_with_title.dfy`
(`Section`), `modal_add_note.dfy` (`Modal`), `notes_container.dfy`
(`Container`), `home.dfy` (`View`).

## Model

| member | source | states |
|---|---|---|
| `View.ListCall` | src/script/view/home.js:27-30 | the active list is fetched exactly when the mode is `'active'`; any other mode fetches the archived list |
| `View.Loaded` | src/script/view/home.js:32-48 | the definition of what `loadNotes` returns (the service's list, or `[]` after an exception); `View.Home.LoadNotes` and `View.Home.InitializeNotes` are stated through it |
| `View.Render` | src/script/view/home.js:87-117 | an empty cache renders the empty-state marker and nothing else does; otherwise exactly one card per cached note, in order, with its id, title, body, date and `archived` flag; every card colour is in the palette, `colors[i % 6]` when the note has none, the note's own colour when that is a palette colour, and the default `yellow` when the note's own colour is not in the palette |
| `View.Filtered` | src/script/view/home.js:87-90 | `filteredNotes` is no longer than the cache and holds only notes of the mode's partition (`'archived'` selects archived notes, anything else selects non-archived notes) |
| `View.RequestedColor` | src/script/view/home.js:112 | a note's own truthy colour is requested as is; without one, exactly the palette colour at `index % 6` is requested |
| `View.CardFor` | src/script/view/home.js:106-114 | the definition of a card's snapshot after the `forEach` body's setters have run; `View.Render`'s contract states its fields and `View.BuildCard` proves the setters reach it |
| `View.FilteredMembers` | src/script/view/home.js:87-90 | the filter keeps exactly the cached notes of the mode's partition |
| `View.RenderIgnoresFilter` | src/script/view/home.js:87-117 | a cached note outside the mode's partition is dropped by the filter but still rendered as a card |
| `View.BuildCard` | src/script/view/home.js:105-116 | the card built for note `i` through the `note-card` setters ends with the note's fields and the requested colour, or the default `yellow` when that colour is not in the palette |
| `View.AppendCards` | src/script/view/home.js:105-117 | the `forEach` loop yields one card per note, card `j` built from note `j` at index `j` |
| `View.RenderNotes` | src/script/view/home.js:76-122 | rendering, which computes and then ignores `filteredNotes`, produces exactly `Render(currentNotes)`, whatever the mode |
| `View.Home.constructor` | src/script/view/home.js:5-7 | initially the mode is `'active'`, both caches are empty and no call has been made |
| `View.Home.Start` | src/script/view/home.js:220-221 | start-up issues exactly one call, to the active list, and caches and renders its answer, or `[]` on failure |
| `View.Home.LoadNotes` | src/script/view/home.js:23-50 | shows the loading placeholder, calls the mode's list endpoint once, and returns the list, or `[]` when the call throws |
| `View.Home.InitializeNotes` | src/script/view/home.js:208-218 | replaces both caches wholesale with the loaded list in server order (emptied on failure), keeps them equal, and renders them |
| `View.Home.NoteSave` | src/script/view/home.js:125-141 | one create call; an exception or a `fail` envelope leaves the cache untouched, triggers no reload and leaves the placeholder showing; otherwise the active list is reloaded whatever the current mode, and the mode is unchanged |
| `View.Home.ViewChange` | src/script/view/home.js:143-153 | the mode becomes the event's mode unconditionally, and exactly that mode's list is reloaded and rendered |
| `View.Home.NoteDelete` | src/script/view/home.js:155-179 | declined: no call and the cache unchanged, but the placeholder left showing; confirmed: one delete call, then (unless it throws) a reload of the active list whatever the envelope says |
| `View.Home.NoteDeleteConfirmFirst` | src/script/view/home.js:155-179 | as `NoteDelete`, except that declining changes nothing at all |
| `View.Home.NoteArchive` | src/script/view/home.js:181-201 | unarchive exactly when the event's `archived` is true, archive otherwise; unless that call throws, the current mode's list is reloaded and the mode is unchanged |
| `View.Home.NoteClick` | src/script/view/home.js:203-205 | a note click changes no state |
| `View.DeclinedDeleteHidesNotes` | src/script/view/home.js:155-174 | with one note on screen, declining a delete leaves the container on the loading placeholder |
| `View.DeclinedDeleteKeepsNotes` | src/script/view/home.js:155-174 | with the placeholder moved after the confirmation, declining leaves the grid as it was |
| `View.SaveFromArchivedView` | src/script/view/home.js:129-147 | after switching to the archived view and saving, the mode is still `'archived'` while the last call fetched, and the cache holds, the active list |
| `Cards.ColorAfterSet` | src/script/components/note-card.js:242-248 | the colour setter takes the value exactly when it is one of the six palette colours; otherwise the colour stays, so a palette colour stays a palette colour |
| `Cards.ArchivedEchoIsStable` | src/script/components/note-card.js:263-267 | the `archived` attribute the setter writes, fed back through the attribute callback, coerces to the same flag, so the echo changes nothing |
| `Cards.UpdateKeepsId` | src/script/components/note-card.js:444-450 | `updateNote` never changes the id, leaves the title, body, colour and `createdAt` each unchanged when its key is not truthy and `archived` when its key is undefined, and keeps the colour in the palette |
| `Cards.SnapshotRoundTrip` | src/script/components/note-card.js:444-461 | updating a card with its own `toJSON` snapshot yields the same six fields |
| `Cards.ApplyUpdate` | src/script/components/note-card.js:444-450 | the definition of `updateNote` on the six fields (truthy keys through their setters, `archived` whenever it is not `undefined`, `id` never); its properties are `Cards.UpdateKeepsId` and `Cards.SnapshotRoundTrip` |
| `Cards.ArchivedFrom` | src/script/components/note-card.js:264 | the definition of the `archived` coercion (`=== true` or `=== 'true'`) that `SetArchived`, `ApplyUpdate` and `Cards.ArchivedEchoIsStable` use |
| `Cards.ArchivedAttr` | src/script/components/note-card.js:265 | the definition of the text `setAttribute('archived', …)` writes; `Cards.NoteCard.SetArchived`, `Cards.NoteCard.UpdateNote` and `Cards.ArchivedEchoIsStable` are stated through it |
| `Cards.NoteCard.ToJSON` | src/script/components/note-card.js:452-461 | the definition of the six-field snapshot that every `NoteCard` method's contract is stated through; `Cards.NoteCard.UpdateFromOwnSnapshot` proves `updateNote(toJSON())` changes nothing |
| `Cards.NoteCard.constructor` | src/script/components/note-card.js:5-10 | a new card has empty id, title and body, colour `yellow`, `archived` false, and `createdAt` set from the clock |
| `Cards.NoteCard.SetId` | src/script/components/note-card.js:215-218 | stores the id and mirrors it into `data-id`; nothing else changes |
| `Cards.NoteCard.SetTitle` | src/script/components/note-card.js:224-227 | stores the title; nothing else changes |
| `Cards.NoteCard.SetBody` | src/script/components/note-card.js:233-236 | stores the body; nothing else changes |
| `Cards.NoteCard.SetColor` | src/script/components/note-card.js:242-248 | stores a palette colour and ignores any other value |
| `Cards.NoteCard.SetCreatedAt` | src/script/components/note-card.js:254-257 | stores the timestamp; nothing else changes |
| `Cards.NoteCard.SetArchived` | src/script/components/note-card.js:263-267 | the flag becomes true exactly for `true` or `'true'`, and the `archived` attribute mirrors it |
| `Cards.NoteCard.AttributeChangedCallback` | src/script/components/note-card.js:422-441 | an unchanged value, `category` and unobserved names leave the card as it was; title, body, colour, `created-at` and `archived` go through their setters, and the `archived` attribute mirrors the flag only in the `archived` case |
| `Cards.NoteCard.UpdateNote` | src/script/components/note-card.js:444-450 | the card after the update is the partial update of its snapshot: truthy keys through their setters, `archived` whenever it is defined, and the id never |
| `Cards.NoteCard.UpdateFromOwnSnapshot` | src/script/components/note-card.js:444-461 | `updateNote(toJSON())` leaves every field unchanged and the `archived` attribute mirroring the flag |
| `Cards.NoteCard.HandleCardClick` | src/script/components/note-card.js:339-357 | a click inside an action button dispatches nothing; any other click dispatches one `note-click` carrying the six current fields |
| `Cards.NoteCard.HandleArchiveClick` | src/script/components/note-card.js:360-375 | `note-archive` carries the card's id and its current `archived` flag |
| `Cards.NoteCard.HandleDeleteClick` | src/script/components/note-card.js:377-390 | `note-delete` carries the card's id and title |
| `Section.RepeatedHandlersEmitOnce` | src/script/components/section-with-title.js:97-140 | however many listeners a toggle button carries, one click ends in the requested mode and dispatches one `view-change`, or none when that mode was already current |
| `Section.ViewChangeStep` | src/script/components/section-with-title.js:127-140 | one handler run always ends in the requested mode and dispatches exactly one `view-change` for it, or nothing iff that mode was already current |
| `Section.ViewChangeSteps` | src/script/components/section-with-title.js:97-112 | the definition of `k` attached listeners each running `_handleViewChange` in turn; `Section.RepeatedHandlersEmitOnce` characterises it and `Section.SectionWithTitle.ClickToggle` is proved against it |
| `Section.SectionWithTitle.constructor` | src/script/components/section-with-title.js:5-19 | the mode starts as `'active'`, only the active button is marked, the title is the placeholder text and the counts are empty |
| `Section.SectionWithTitle.ConnectedCallback` | src/script/components/section-with-title.js:89-91 | connecting attaches one more listener to each button |
| `Section.SectionWithTitle.DisconnectedCallback` | src/script/components/section-with-title.js:93-125 | disconnecting removes no listener, because a different function is passed to `removeEventListener` |
| `Section.SectionWithTitle.UpdateButtonStates` | src/script/components/section-with-title.js:142-150 | afterwards exactly one button is marked active, the one matching `_viewMode` |
| `Section.SectionWithTitle.HandleViewChange` | src/script/components/section-with-title.js:127-140 | requesting the current mode changes nothing and dispatches nothing; the other mode becomes current, with exactly one `view-change` carrying that mode; `_viewMode` stays `'active'` or `'archived'` |
| `Section.SectionWithTitle.ClickToggle` | src/script/components/section-with-title.js:97-112 | a button click runs every attached listener and dispatches at most one `view-change` |
| `Section.SectionWithTitle.UpdateCounts` | src/script/components/section-with-title.js:152-163 | both counts are written, and a missing count is written as 0 |
| `Section.SectionWithTitle.AttributeChangedCallback` | src/script/components/section-with-title.js:197-207 | a changed `title` updates `_title` and the heading; an unchanged value or another name changes nothing |
| `Modal.Limit` | src/script/components/modal-add-note.js:417-434 | a field keeps what was entered when it fits, and otherwise exactly its first `maxlength` characters |
| `Modal.FormValid` | src/script/components/modal-add-note.js:291-314 | the definition of `_validateForm`'s result (both trimmed fields non-empty); `Modal.FormValidIffNotBlank` characterises it and `Modal.ModalAddNote.ValidateForm` computes it |
| `Modal.FormValidIffNotBlank` | src/script/components/modal-add-note.js:291-314 | the form is valid exactly when neither field consists only of white space |
| `Modal.SavedPayloadIsClean` | src/script/components/modal-add-note.js:321-327 | a saved title and body are non-empty, start and end with non-space characters, are already trimmed and are no longer than their fields |
| `Modal.ModalAddNote.constructor` | src/script/components/modal-add-note.js:5 | the modal starts closed with an empty form and no error flags |
| `Modal.ModalAddNote.Open` | src/script/components/modal-add-note.js:228-239 | opening sets `_isOpen` and dispatches `modal-open` |
| `Modal.ModalAddNote.Close` | src/script/components/modal-add-note.js:241-252 | closing clears `_isOpen`, empties both fields, clears every error flag and dispatches `modal-close` |
| `Modal.ModalAddNote.Toggle` | src/script/components/modal-add-note.js:254-260 | toggling flips `_isOpen`, closing (with a reset) when it was open and opening otherwise |
| `Modal.ModalAddNote.ResetForm` | src/script/components/modal-add-note.js:271-279 | both fields become empty and every error flag is cleared |
| `Modal.ModalAddNote.ClearErrors` | src/script/components/modal-add-note.js:281-289 | every error flag is cleared |
| `Modal.ModalAddNote.ValidateForm` | src/script/components/modal-add-note.js:291-314 | returns true exactly when both trimmed fields are non-empty, and flags each blank field on its own after clearing the old flags |
| `Modal.ModalAddNote.HandleSave` | src/script/components/modal-add-note.js:316-338 | an invalid form dispatches nothing and the modal stays open with its values; a valid one dispatches exactly one `note-save` with the trimmed title and body, then closes |
| `Modal.ModalAddNote.HandleInput` | src/script/components/modal-add-note.js:372-380 | typing into a field stores the text, capped at its `maxlength`, and clears that field's error flag and no other |
| `Modal.ModalAddNote.HandleKeydown` | src/script/components/modal-add-note.js:383-395 | Escape closes and Ctrl/Meta+Enter saves, both only while the modal is open; any other key, or a closed modal, changes nothing; after Escape or a valid save the form is empty and unflagged, and after an invalid save the values stay and each flag marks its blank field |
| `Container.GridColumnsFor` | src/script/components/notes-container.js:25-27 | a fixed `repeat(column, 1fr)` exactly when the column count is set and non-zero; otherwise auto-fill with the minimum width |
| `Container.ZeroColumnFallsBack` | src/script/components/notes-container.js:25-27 | a column count of 0 gives the same auto-fill template as no count |
| `Container.NotesContainer.constructor` | src/script/components/notes-container.js:7-9 | the defaults are no column count, gutter 24 and minimum width 320, which gives an auto-fill layout |
| `Container.NotesContainer.SetColumn` | src/script/components/notes-container.js:68-74 | `null` clears the count, an integer sets it, and any other value is ignored; afterwards `null` or 0 gives the auto-fill layout and a non-zero integer that many equal columns |
| `Container.IsValidInteger` | src/script/utils.js:6-8 | the definition of `Utils.isValidInteger` on a converted number: it accepts exactly the integers, which the three setters' contracts use |
| `Container.NotesContainer.SetGutter` | src/script/components/notes-container.js:80-86 | an integer is stored, `null` becomes 0 (`Number(null)`), and any other value is ignored |
| `Container.NotesContainer.SetMinWidth` | src/script/components/notes-container.js:92-98 | an integer is stored, `null` becomes 0, and any other value is ignored |
| `Container.NotesContainer.AttributeChangedCallback` | src/script/components/notes-container.js:121-139 | an unchanged text or an unobserved name changes nothing; `column="auto"` or a removed `column` clears the count; each other attribute goes through its own setter and leaves the other two settings alone; a changed `column` that is removed, `"auto"` or 0 leaves the auto-fill layout with the old minimum width and gap |
| `Text.TrimStart` | src/script/components/modal-add-note.js:301 | the result is a suffix of the input that does not start with white space |
| `Text.TrimStartCutsBlank` | src/script/components/modal-add-note.js:301 | everything `TrimStart` cuts off is white space |
| `Text.TrimEnd` | src/script/components/modal-add-note.js:307 | the result is a prefix of the input that does not end with white space |
| `Text.TrimEndCutsBlank` | src/script/components/modal-add-note.js:307 | everything `TrimEnd` cuts off is white space |
| `Text.Trim` | src/script/components/modal-add-note.js:301 | the definition of `String.prototype.trim` as `TrimEnd(TrimStart(s))`; its properties are `Text.TrimIsSlice`, `Text.TrimHasNoOuterSpace`, `Text.TrimEmptyIffBlank` and `Text.TrimIdempotent` |
| `Text.TrimIsSlice` | src/script/components/modal-add-note.js:325-326 | a trimmed string is a slice of the input with only white space around it |
| `Text.TrimHasNoOuterSpace` | src/script/components/modal-add-note.js:325-326 | a non-empty trimmed string neither starts nor ends with white space |
| `Text.TrimEmptyIffBlank` | src/script/components/modal-add-note.js:301-310 | trimming leaves nothing exactly when the input is all white space |
| `Text.TrimIdempotent` | src/script/components/modal-add-note.js:325-326 | trimming twice gives the same string as trimming once |

## Findings

| source | as written | input that shows it | evidently intended | confidence | as-written member | corrected member |
|---|---|---|---|---|---|---|
| src/script/view/home.js:155-174 | `showLoading()` replaces the grid with the loading placeholder before the confirmation dialog opens, and a declined confirmation renders nothing again | a `note-delete` event that the user declines while notes are shown | declining a delete leaves the notes on screen | high (not executed) | `View.DeclinedDeleteHidesNotes` | `View.DeclinedDeleteKeepsNotes` |

`View.Home.NoteDelete` models the handler as written. `View.Home.NoteDeleteConfirmFirst`
is the corrected handler, and `View.DeclinedDeleteKeepsNotes` uses it.

## Left out

- The remote notes client (`src/script/data/remote/notes-api.js`) is not part of this model. Each call is an oracle parameter: a list, an envelope, or an exception. `getNoteById` is never called by the core.
- A list response without a `data` array is not modelled. It would make `notesData` undefined and make the copy in `initializeNotes` throw.
- SweetAlert dialogs, toasts and their texts are not modelled. The delete confirmation is a boolean input. Also left out: `location.reload`, `AOS.refresh`, `setTimeout`, focus handling and `console` output. All are external side effects.
- Overlapping handlers are not modelled. Each handler runs atomically, so the races between in-flight reloads are outside the model.
- `View.Home.NoteArchive`: when the archive call throws, its `catch` block reads `archived` outside its scope and throws again. This is modelled only as "no reload".
- `View.RenderNotes` leaves out `container.setAttribute('gutter', '24')`. The container's response to that attribute is modelled by `Container.NotesContainer.AttributeChangedCallback`.
- `View.RenderNotes` leaves out the `noteCard.category` assignment, which is not a field of the card.
- `NoteCard._formatDate` is not modelled. It depends on the current date, locale formatting and floating-point division.
- CSS text, `innerHTML` templates, shadow-DOM queries, event bubbling and listener bookkeeping are presentation only. The one exception is the section toggle's listener count.
- The modal's `open` attribute is not modelled. It is set and removed together with `_isOpen`.
- `Cards.NoteCard.AttributeChangedCallback` does not model attribute removal. A removed attribute would store `null` in a string field.
- `Section.SectionWithTitle.AttributeChangedCallback` does not model removing the `title` attribute, which stores `null` in `_title` and writes an empty heading.
- `Section.SectionWithTitle.UpdateCounts` does not model a `null` count. Default parameters apply only to `undefined`, so `null` writes an empty badge, not 0.
- `Container`: JavaScript's `Number(value)` is not computed. Each setter argument carries its converted number (an integer, or anything that is not an integer). Only `Number(null) == 0` is written out.
- `Modal.Limit` counts characters, while `maxlength` counts UTF-16 code units.
- `src/script/components/app-bar.js` and `src/app.js` are not part of this model. They only wire up the page: one button opens the modal.
