/**
 * The home view: the orchestrator that owns the view mode and the cached
 * note list, turns the components' intent events into calls to the remote
 * notes service, and re-renders the grid from the cache.
 *
 * Each handler runs to completion before the next one starts. Every remote
 * call is an oracle: the handler receives, as a parameter, what that call
 * answers (a note list, a response envelope, or an exception), and the
 * `calls` log records which endpoints were called, in order.
 */
module View {
  import opened Wrappers
  import opened Notes
  import Cards

  /** A note as the service returns it; `color` is normally absent. */
  datatype Note = Note(
    id: string,
    title: string,
    body: string,
    color: Option<string>,
    createdAt: string,
    archived: bool)

  /** What `getNotes` / `getArchivedNotes` answer: the list, or an exception. */
  datatype ListReply = Listed(notes: seq<Note>) | FetchFailed

  /** What `createNote`, `archiveNote`, `unarchiveNote` and `deleteNote` answer: an envelope, or an exception. */
  datatype MutationReply = Answered(status: string) | Threw

  /** One call into the remote notes client. */
  datatype ApiCall =
    | GetNotes
    | GetArchivedNotes
    | CreateNote(title: string, body: string)
    | ArchiveNote(id: string)
    | UnarchiveNote(id: string)
    | DeleteNote(id: string)

  /** What the `notes-container` shows. */
  datatype Display = Blank | Loading | EmptyState | Grid(cards: seq<CardData>)

  /** The list endpoint for a view mode: the active list for `'active'`, the archived list for anything else. */
  function ListCall(mode: string): (c: ApiCall)
    ensures c == GetNotes <==> mode == ActiveMode
    ensures c != GetNotes ==> c == GetArchivedNotes
  {
    if mode == ActiveMode then GetNotes else GetArchivedNotes
  }

  /** The list `loadNotes` returns: the service's list, or `[]` after an exception. */
  function Loaded(reply: ListReply): seq<Note> {
    if reply.Listed? then reply.notes else []
  }

  /** The colour `renderNotes` asks card `index` for: the note's own, else the palette by `index mod 6`. */
  function RequestedColor(note: Note, index: nat): (c: string)
    ensures !Truthy(note.color) ==> c in Palette && c == Palette[index % |Palette|]
    ensures Truthy(note.color) ==> c == note.color.value
  {
    if Truthy(note.color) then note.color.value else Palette[index % |Palette|]
  }

  /** The snapshot of the card rendered for `note` at position `index`, after its setters have run. */
  function CardFor(note: Note, index: nat): CardData {
    CardData(note.id, note.title, note.body, Cards.ColorAfterSet("yellow", RequestedColor(note, index)),
             note.createdAt, note.archived)
  }

  /**
   * What rendering a cache produces: the empty-state marker for an empty
   * cache, otherwise one card per cached note, in cache order, whatever its
   * `archived` flag.
   */
  function Render(notes: seq<Note>): (d: Display)
    ensures d == EmptyState <==> notes == []
    ensures notes != [] ==> d.Grid? && |d.cards| == |notes|
    ensures d.Grid? ==> forall i :: 0 <= i < |notes| ==>
      && d.cards[i].id == notes[i].id && d.cards[i].title == notes[i].title
      && d.cards[i].body == notes[i].body && d.cards[i].createdAt == notes[i].createdAt
      && d.cards[i].archived == notes[i].archived
      && d.cards[i].color in Palette
      && (!Truthy(notes[i].color) ==> d.cards[i].color == Palette[i % |Palette|])
      && (Truthy(notes[i].color) && notes[i].color.value in Palette ==> d.cards[i].color == notes[i].color.value)
      && (Truthy(notes[i].color) && notes[i].color.value !in Palette ==> d.cards[i].color == "yellow")
  {
    if notes == [] then EmptyState
    else Grid(seq(|notes|, i requires 0 <= i < |notes| => CardFor(notes[i], i)))
  }

  /** `filteredNotes`: the cached notes whose `archived` flag matches the mode. */
  function Filtered(notes: seq<Note>, mode: string): (r: seq<Note>)
    ensures |r| <= |notes|
    ensures forall i :: 0 <= i < |r| ==> r[i].archived == (mode == ArchivedMode)
  {
    if notes == [] then []
    else (if notes[0].archived == (mode == ArchivedMode) then [notes[0]] else []) + Filtered(notes[1..], mode)
  }

  /** The filter keeps exactly the cached notes of the mode's partition. */
  lemma {:induction false} FilteredMembers(notes: seq<Note>, mode: string)
    ensures forall n :: n in Filtered(notes, mode) <==> n in notes && n.archived == (mode == ArchivedMode)
  {
    if notes != [] {
      FilteredMembers(notes[1..], mode);
      assert notes == [notes[0]] + notes[1..];
    }
  }

  /**
   * Rendering does not use `filteredNotes`: a cached note from the other
   * partition is still shown, although the filter would have dropped it.
   */
  lemma RenderIgnoresFilter(notes: seq<Note>, mode: string, i: nat)
    requires i < |notes| && notes[i].archived != (mode == ArchivedMode)
    ensures notes[i] !in Filtered(notes, mode)
    ensures Render(notes).Grid? && Render(notes).cards[i].id == notes[i].id
    ensures Render(notes).cards[i].archived != (mode == ArchivedMode)
  {
    FilteredMembers(notes, mode);
  }

  /**
   * One iteration of `renderNotes`: a fresh `note-card` whose setters are fed
   * the note's fields and the requested colour; its snapshot afterwards.
   */
  method BuildCard(note: Note, index: nat) returns (c: CardData)
    ensures c == CardFor(note, index)
  {
    // The card's clock-seeded `createdAt` is overwritten below, so any seed serves.
    var card := new Cards.NoteCard(note.createdAt);
    card.SetId(note.id);
    card.SetTitle(note.title);
    card.SetBody(note.body);
    card.SetColor(RequestedColor(note, index));
    card.SetCreatedAt(note.createdAt);
    card.SetArchived(Bool(note.archived));
    c := card.ToJSON();
  }

  /** The `forEach` of `renderNotes`: one card per note, appended in order. */
  method AppendCards(notes: seq<Note>) returns (cards: seq<CardData>)
    ensures |cards| == |notes|
    ensures forall j :: 0 <= j < |notes| ==> cards[j] == CardFor(notes[j], j)
  {
    cards := [];
    var index := 0;
    while index < |notes|
      invariant 0 <= index <= |notes|
      invariant |cards| == index
      invariant forall j :: 0 <= j < index ==> cards[j] == CardFor(notes[j], j)
    {
      var card := BuildCard(notes[index], index);
      ghost var before := cards;
      cards := cards + [card];
      assert forall j :: 0 <= j < index ==> cards[j] == before[j];
      index := index + 1;
    }
  }

  /**
   * `renderNotes(mode)`: the empty-state marker, or the cards of every cached
   * note. `filteredNotes` is computed and then left unused.
   */
  method RenderNotes(notes: seq<Note>, mode: string) returns (d: Display)
    ensures d == Render(notes)
  {
    var filteredNotes := Filtered(notes, mode);
    if |notes| == 0 {
      return EmptyState;
    }
    var cards := AppendCards(notes);
    d := Grid(cards);
    assert d.cards == Render(notes).cards;
  }

  class Home {
    var currentViewMode: string
    var notesData: seq<Note>
    var currentNotes: seq<Note>
    var display: Display
    /** Every call into the remote notes client so far, in order. */
    var calls: seq<ApiCall>

    /** The rendered copy of the cache is always the cache itself. */
    ghost predicate Valid()
      reads this
    {
      currentNotes == notesData
    }

    /** The grid shows the cache (and not the loading placeholder). */
    ghost predicate Settled()
      reads this
    {
      display == Render(currentNotes)
    }

    /** The closure variables as `home()` declares them, before the first load. */
    constructor ()
      ensures Valid()
      ensures currentViewMode == ActiveMode && notesData == [] && currentNotes == []
      ensures display == Blank && calls == []
    {
      currentViewMode := ActiveMode;
      notesData, currentNotes := [], [];
      display, calls := Blank, [];
    }

    /** Start-up: one load of the active list. */
    method Start(reply: ListReply)
      modifies this`display, this`calls, this`notesData, this`currentNotes
      ensures Valid() && Settled()
      ensures currentViewMode == old(currentViewMode)
      ensures calls == old(calls) + [GetNotes]
      ensures currentNotes == Loaded(reply)
    {
      InitializeNotes(ActiveMode, reply);
    }

    /** `loadNotes(mode)`: shows the placeholder, calls the list endpoint of the mode; a failure yields `[]`. */
    method LoadNotes(mode: string, reply: ListReply) returns (notes: seq<Note>)
      modifies this`display, this`calls
      ensures display == Loading
      ensures calls == old(calls) + [ListCall(mode)]
      ensures reply.Listed? ==> notes == reply.notes
      ensures reply.FetchFailed? ==> notes == []
    {
      display := Loading;
      calls := calls + [if mode == ActiveMode then GetNotes else GetArchivedNotes];
      match reply {
        case Listed(ns) => notes := ns;
        case FetchFailed => notes := [];
      }
    }

    /** `initializeNotes(mode)`: replaces the cache wholesale with the loaded list and renders it. */
    method InitializeNotes(mode: string, reply: ListReply)
      modifies this`display, this`calls, this`notesData, this`currentNotes
      ensures Valid() && Settled()
      ensures calls == old(calls) + [ListCall(mode)]
      ensures currentNotes == Loaded(reply)
    {
      notesData := LoadNotes(mode, reply);
      currentNotes := notesData;
      display := RenderNotes(currentNotes, mode);
    }

    /**
     * `note-save`: one create call; an exception or a `fail` envelope stops
     * there, otherwise the ACTIVE list is reloaded whatever the view mode.
     */
    method NoteSave(title: string, body: string, created: MutationReply, reload: ListReply)
      requires Valid()
      modifies this`display, this`calls, this`notesData, this`currentNotes
      ensures Valid()
      ensures currentViewMode == old(currentViewMode)
      ensures created == Threw || created.status == "fail" ==>
        && calls == old(calls) + [CreateNote(title, body)]
        && display == Loading && currentNotes == old(currentNotes)
      ensures created.Answered? && created.status != "fail" ==>
        && calls == old(calls) + [CreateNote(title, body), GetNotes]
        && Settled() && currentNotes == Loaded(reload)
    {
      display := Loading;
      calls := calls + [CreateNote(title, body)];
      if created == Threw || created.status == "fail" {
        return;
      }
      InitializeNotes(ActiveMode, reload);
    }

    /** `view-change`: adopts the requested mode unconditionally and reloads that mode's list. */
    method ViewChange(mode: string, reload: ListReply)
      modifies this`currentViewMode, this`display, this`calls, this`notesData, this`currentNotes
      ensures Valid() && Settled()
      ensures currentViewMode == mode
      ensures calls == old(calls) + [ListCall(mode)]
      ensures currentNotes == Loaded(reload)
    {
      display := Loading;
      currentViewMode := mode;
      InitializeNotes(currentViewMode, reload);
    }

    /**
     * `note-delete`: shows the placeholder, then asks for confirmation. Only
     * a confirmed delete calls the service; unless that call throws, the
     * ACTIVE list is reloaded (the envelope's status is not looked at).
     */
    method NoteDelete(id: string, title: string, confirmed: bool, deleted: MutationReply, reload: ListReply)
      requires Valid()
      modifies this`display, this`calls, this`notesData, this`currentNotes
      ensures Valid()
      ensures currentViewMode == old(currentViewMode)
      ensures !confirmed ==> calls == old(calls) && currentNotes == old(currentNotes) && display == Loading
      ensures confirmed && deleted == Threw ==>
        calls == old(calls) + [DeleteNote(id)] && currentNotes == old(currentNotes) && display == Loading
      ensures confirmed && deleted.Answered? ==>
        calls == old(calls) + [DeleteNote(id), GetNotes] && Settled() && currentNotes == Loaded(reload)
    {
      display := Loading;
      if confirmed {
        calls := calls + [DeleteNote(id)];
        if deleted == Threw {
          return;
        }
        InitializeNotes(ActiveMode, reload);
      }
    }

    /** `note-delete` with the placeholder shown only once the user has confirmed. */
    method NoteDeleteConfirmFirst(id: string, title: string, confirmed: bool, deleted: MutationReply, reload: ListReply)
      requires Valid()
      modifies this`display, this`calls, this`notesData, this`currentNotes
      ensures Valid()
      ensures currentViewMode == old(currentViewMode)
      ensures !confirmed ==> unchanged(this)
      ensures confirmed && deleted == Threw ==>
        calls == old(calls) + [DeleteNote(id)] && currentNotes == old(currentNotes) && display == Loading
      ensures confirmed && deleted.Answered? ==>
        calls == old(calls) + [DeleteNote(id), GetNotes] && Settled() && currentNotes == Loaded(reload)
    {
      if confirmed {
        display := Loading;
        calls := calls + [DeleteNote(id)];
        if deleted == Threw {
          return;
        }
        InitializeNotes(ActiveMode, reload);
      }
    }

    /**
     * `note-archive`: unarchives an archived note and archives any other,
     * then, unless that call throws, reloads the CURRENT mode's list (the
     * envelope's status is not looked at).
     */
    method NoteArchive(id: string, archived: bool, toggled: MutationReply, reload: ListReply)
      requires Valid()
      modifies this`display, this`calls, this`notesData, this`currentNotes
      ensures Valid()
      ensures currentViewMode == old(currentViewMode)
      ensures toggled == Threw ==>
        && calls == old(calls) + [if archived then UnarchiveNote(id) else ArchiveNote(id)]
        && currentNotes == old(currentNotes) && display == Loading
      ensures toggled.Answered? ==>
        && calls == old(calls) + [if archived then UnarchiveNote(id) else ArchiveNote(id), ListCall(currentViewMode)]
        && Settled() && currentNotes == Loaded(reload)
    {
      display := Loading;
      if archived {
        calls := calls + [UnarchiveNote(id)];
      } else {
        calls := calls + [ArchiveNote(id)];
      }
      if toggled == Threw {
        return;
      }
      InitializeNotes(currentViewMode, reload);
    }

    /** `note-click` is only logged. */
    method NoteClick(detail: CardData)
      ensures unchanged(this)
    {
    }
  }

  /** A note used by the scenarios below. */
  const SampleNote := Note("notes-1", "Groceries", "Milk", None, "2024-01-01T00:00:00.000Z", false)

  /**
   * Declining a delete leaves the grid on the loading placeholder: the notes
   * were on screen before, and nothing puts them back.
   */
  method DeclinedDeleteHidesNotes() returns (before: Display, after: Display)
    ensures before.Grid? && |before.cards| == 1
    ensures after == Loading
  {
    var home := new Home();
    home.Start(Listed([SampleNote]));
    before := home.display;
    home.NoteDelete(SampleNote.id, SampleNote.title, false, Threw, FetchFailed);
    after := home.display;
  }

  /** With the placeholder moved after the confirmation, declining leaves the grid as it was. */
  method DeclinedDeleteKeepsNotes() returns (before: Display, after: Display)
    ensures before.Grid? && |before.cards| == 1
    ensures after == before
  {
    var home := new Home();
    home.Start(Listed([SampleNote]));
    before := home.display;
    home.NoteDeleteConfirmFirst(SampleNote.id, SampleNote.title, false, Threw, FetchFailed);
    after := home.display;
  }

  /**
   * Saving while the archived view is shown reloads the active list, so the
   * cache no longer matches the view mode.
   */
  method SaveFromArchivedView(archivedNotes: seq<Note>, activeNotes: seq<Note>)
    returns (mode: string, lastCall: ApiCall, shown: seq<Note>)
    ensures mode == ArchivedMode && lastCall == GetNotes && shown == activeNotes
  {
    var home := new Home();
    home.Start(Listed(activeNotes));
    home.ViewChange(ArchivedMode, Listed(archivedNotes));
    home.NoteSave("Title", "Body", Answered("success"), Listed(activeNotes));
    mode, lastCall, shown := home.currentViewMode, home.calls[|home.calls| - 1], home.currentNotes;
  }
}
