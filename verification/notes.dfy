/** Option, for JavaScript values that may be missing (`null`, `undefined`, an absent key). */
module Wrappers {
  datatype Option<+T> = None | Some(value: T)
}

/**
 * The vocabulary the components share: the colour palette, the six-field
 * snapshot of a note card, JavaScript values handed to setters, and the
 * custom events that travel between the elements and the view.
 */
module Notes {
  import opened Wrappers

  /** The two view modes: the active notes and the archived ones. */
  const ActiveMode := "active"
  const ArchivedMode := "archived"

  /** The six card colours, in the order the view cycles through them. */
  const Palette: seq<string> := ["yellow", "pink", "blue", "green", "purple", "orange"]

  /** What a note card reports about itself: `toJSON()` and the `note-click` detail. */
  datatype CardData = CardData(
    id: string,
    title: string,
    body: string,
    color: string,
    createdAt: string,
    archived: bool)

  /** A JavaScript value passed to a loosely typed setter. */
  datatype JsValue = Undefined | Null | Bool(b: bool) | Str(s: string)

  /** JavaScript truthiness of an optional string: present and not empty. */
  predicate Truthy(v: Option<string>) {
    v.Some? && v.value != ""
  }

  /** The custom events the components dispatch, with their `detail` payloads. */
  datatype Event =
    | NoteClick(detail: CardData)
    | NoteArchive(id: string, archived: bool)
    | NoteDelete(id: string, title: string)
    | ViewChange(mode: string)
    | NoteSave(title: string, body: string)
    | ModalOpen
    | ModalClose
}
