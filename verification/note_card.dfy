/**
 * The `note-card` element: six fields changed by guarded setters, a partial
 * update, a snapshot, and the events a click on the card dispatches.
 */
module Cards {
  import opened Wrappers
  import opened Notes

  /** The colour the `color` setter leaves behind: only a palette colour replaces the current one. */
  function ColorAfterSet(current: string, requested: string): (c: string)
    ensures current in Palette ==> c in Palette
    ensures c == requested || c == current
    ensures c == requested <==> requested in Palette || requested == current
  {
    if requested in Palette then requested else current
  }

  /** The `archived` setter's coercion: only `true` and `'true'` mean archived. */
  predicate ArchivedFrom(v: JsValue) {
    v == Bool(true) || v == Str("true")
  }

  /** The text the `archived` setter writes back into the `archived` attribute. */
  function ArchivedAttr(b: bool): string {
    if b then "true" else "false"
  }

  /**
   * Writing the attribute back re-enters `attributeChangedCallback`, which
   * runs the setter again on the attribute's text: that second run agrees
   * with the first, so the echo changes nothing.
   */
  lemma ArchivedEchoIsStable(v: JsValue)
    ensures ArchivedFrom(Str(ArchivedAttr(ArchivedFrom(v)))) == ArchivedFrom(v)
  {
  }

  /** The argument of `updateNote`: each key may be missing (`None`, or `Undefined` for `archived`). */
  datatype Update = Update(
    id: Option<string>,
    title: Option<string>,
    body: Option<string>,
    color: Option<string>,
    createdAt: Option<string>,
    archived: JsValue)

  /** A snapshot handed back as an update object, as in `card.updateNote(card.toJSON())`. */
  function AsUpdate(d: CardData): Update {
    Update(Some(d.id), Some(d.title), Some(d.body), Some(d.color), Some(d.createdAt), Bool(d.archived))
  }

  /** The card after `updateNote(u)`: truthy keys go through their setters, `id` is never touched. */
  function ApplyUpdate(d: CardData, u: Update): CardData {
    CardData(
      d.id,
      if Truthy(u.title) then u.title.value else d.title,
      if Truthy(u.body) then u.body.value else d.body,
      if Truthy(u.color) then ColorAfterSet(d.color, u.color.value) else d.color,
      if Truthy(u.createdAt) then u.createdAt.value else d.createdAt,
      if u.archived != Undefined then ArchivedFrom(u.archived) else d.archived)
  }

  /** `updateNote` never changes the id, and each field changes only through its own key. */
  lemma UpdateKeepsId(d: CardData, u: Update)
    ensures ApplyUpdate(d, u).id == d.id
    ensures !Truthy(u.title) ==> ApplyUpdate(d, u).title == d.title
    ensures !Truthy(u.body) ==> ApplyUpdate(d, u).body == d.body
    ensures !Truthy(u.color) ==> ApplyUpdate(d, u).color == d.color
    ensures !Truthy(u.createdAt) ==> ApplyUpdate(d, u).createdAt == d.createdAt
    ensures u.archived == Undefined ==> ApplyUpdate(d, u).archived == d.archived
    ensures d.color in Palette ==> ApplyUpdate(d, u).color in Palette
  {
  }

  /** Feeding a card its own snapshot changes nothing, whatever the fields hold. */
  lemma SnapshotRoundTrip(d: CardData)
    ensures ApplyUpdate(d, AsUpdate(d)) == d
  {
  }

  class NoteCard {
    var id: string
    var title: string
    var body: string
    var color: string
    var createdAt: string
    var archived: bool
    /** The `data-id` attribute the `id` setter writes. */
    var dataId: Option<string>
    /** The `archived` attribute the `archived` setter writes. */
    var archivedAttr: Option<string>

    /** The setters only ever store palette colours, and the default is one. */
    ghost predicate Valid()
      reads this
    {
      color in Palette
    }

    /** `toJSON()`: exactly the six current fields. */
    function ToJSON(): CardData
      reads this
    {
      CardData(id, title, body, color, createdAt, archived)
    }

    /** A fresh card; `now` is the clock reading that seeds `createdAt`. */
    constructor (now: string)
      ensures Valid()
      ensures ToJSON() == CardData("", "", "", "yellow", now, false)
      ensures dataId == None && archivedAttr == None
    {
      id, title, body, color, createdAt, archived := "", "", "", "yellow", now, false;
      dataId, archivedAttr := None, None;
    }

    method SetId(v: string)
      modifies this
      ensures ToJSON() == old(ToJSON()).(id := v)
      ensures dataId == Some(v) && archivedAttr == old(archivedAttr)
    {
      id := v;
      dataId := Some(v);
    }

    method SetTitle(v: string)
      modifies this`title
      ensures ToJSON() == old(ToJSON()).(title := v)
    {
      title := v;
    }

    method SetBody(v: string)
      modifies this`body
      ensures ToJSON() == old(ToJSON()).(body := v)
    {
      body := v;
    }

    /** Only a palette colour is stored; any other value leaves the colour as it was. */
    method SetColor(v: string)
      requires Valid()
      modifies this`color
      ensures Valid()
      ensures ToJSON() == old(ToJSON()).(color := ColorAfterSet(old(color), v))
    {
      if v in Palette {
        color := v;
      }
    }

    method SetCreatedAt(v: string)
      modifies this`createdAt
      ensures ToJSON() == old(ToJSON()).(createdAt := v)
    {
      createdAt := v;
    }

    /** Coerces to a boolean and mirrors it into the `archived` attribute. */
    method SetArchived(v: JsValue)
      modifies this`archived, this`archivedAttr
      ensures ToJSON() == old(ToJSON()).(archived := ArchivedFrom(v))
      ensures archivedAttr == Some(ArchivedAttr(archived))
    {
      archived := v == Bool(true) || v == Str("true");
      archivedAttr := Some(if archived then "true" else "false");
    }

    /**
     * The browser's report that attribute `name` went from `oldValue` to
     * `newValue`. Unchanged values and `category` (observed but unhandled)
     * are ignored; the others go through their setters.
     */
    method AttributeChangedCallback(name: string, oldValue: Option<string>, newValue: string)
      requires Valid()
      modifies this`title, this`body, this`color, this`createdAt, this`archived, this`archivedAttr
      ensures Valid()
      ensures oldValue == Some(newValue) || name !in {"title", "body", "color", "created-at", "archived"}
              ==> ToJSON() == old(ToJSON()) && archivedAttr == old(archivedAttr)
      ensures oldValue != Some(newValue) ==>
        ToJSON() == (match name
          case "title" => old(ToJSON()).(title := newValue)
          case "body" => old(ToJSON()).(body := newValue)
          case "color" => old(ToJSON()).(color := ColorAfterSet(old(color), newValue))
          case "created-at" => old(ToJSON()).(createdAt := newValue)
          case "archived" => old(ToJSON()).(archived := newValue == "true")
          case _ => old(ToJSON()))
      ensures oldValue != Some(newValue) ==>
        archivedAttr == if name == "archived" then Some(ArchivedAttr(archived)) else old(archivedAttr)
    {
      if oldValue == Some(newValue) {
        return;
      }
      match name {
        case "title" => SetTitle(newValue);
        case "body" => SetBody(newValue);
        case "color" => SetColor(newValue);
        case "created-at" => SetCreatedAt(newValue);
        case "archived" => SetArchived(Str(newValue));
        case _ =>
      }
    }

    /** `updateNote(data)`: a partial update through the setters. */
    method UpdateNote(data: Update)
      requires Valid()
      modifies this`title, this`body, this`color, this`createdAt, this`archived, this`archivedAttr
      ensures Valid()
      ensures ToJSON() == ApplyUpdate(old(ToJSON()), data)
      ensures archivedAttr == if data.archived != Undefined then Some(ArchivedAttr(archived)) else old(archivedAttr)
    {
      if Truthy(data.title) { SetTitle(data.title.value); }
      if Truthy(data.body) { SetBody(data.body.value); }
      if Truthy(data.color) { SetColor(data.color.value); }
      if Truthy(data.createdAt) { SetCreatedAt(data.createdAt.value); }
      if data.archived != Undefined { SetArchived(data.archived); }
    }

    /** `card.updateNote(card.toJSON())` leaves every field as it was. */
    method UpdateFromOwnSnapshot()
      requires Valid()
      modifies this`title, this`body, this`color, this`createdAt, this`archived, this`archivedAttr
      ensures Valid() && ToJSON() == old(ToJSON())
      ensures archivedAttr == Some(ArchivedAttr(archived))
    {
      SnapshotRoundTrip(ToJSON());
      UpdateNote(AsUpdate(ToJSON()));
    }

    /** A click on the card: nothing from inside an action button, else `note-click` with the six fields. */
    method HandleCardClick(insideActionButton: bool) returns (events: seq<Event>)
      ensures insideActionButton ==> events == []
      ensures !insideActionButton ==> events == [NoteClick(ToJSON())]
    {
      if insideActionButton {
        return [];
      }
      events := [NoteClick(CardData(id, title, body, color, createdAt, archived))];
    }

    /** The archive button: `note-archive` with the id and the current flag. */
    method HandleArchiveClick() returns (e: Event)
      ensures e.NoteArchive? && e.id == id && e.archived == archived
    {
      e := NoteArchive(id, archived);
    }

    /** The delete button: `note-delete` with the id and the title. */
    method HandleDeleteClick() returns (e: Event)
      ensures e.NoteDelete? && e.id == id && e.title == title
    {
      e := NoteDelete(id, title);
    }
  }
}
