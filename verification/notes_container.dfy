/**
 * The `notes-container` element: three layout settings behind validating
 * setters, and the grid template derived from them.
 */
module Container {
  import opened Wrappers

  /**
   * The result of JavaScript's `Number(value)`, as far as the setters look at
   * it: an integer, or anything `Number.isInteger` rejects (a fraction,
   * `NaN`, an infinity).
   */
  datatype JsNumber = Integer(i: int) | NotInteger

  /** A setter's argument: `null`, or any other value together with its conversion `Number(value)`. */
  datatype SetterArg = Null | Converted(number: JsNumber)

  /** `Number(value)`; in particular `Number(null)` is `0`. */
  function ToNumber(a: SetterArg): JsNumber {
    match a
    case Null => Integer(0)
    case Converted(n) => n
  }

  /** `Utils.isValidInteger`. */
  predicate IsValidInteger(n: JsNumber) {
    n.Integer?
  }

  /** An attribute value as `attributeChangedCallback` sees it: absent, or a text with its `Number(text)`. */
  datatype AttrValue = Absent | Text(text: string, number: JsNumber)

  /** What `===` compares for two attribute values: their texts. */
  function AttrText(v: AttrValue): Option<string> {
    if v.Text? then Some(v.text) else None
  }

  /** The argument an attribute value passes to a setter (`null` when the attribute is absent). */
  function AsSetterArg(v: AttrValue): SetterArg {
    if v.Text? then Converted(v.number) else Null
  }

  /** `grid-template-columns`: a fixed number of equal columns, or as many columns of a minimum width as fit. */
  datatype GridColumns = Repeat(count: int) | AutoFill(minWidthPx: int)

  /** The choice in `_updateStyle`: a truthy column count wins, otherwise auto-fill. */
  function GridColumnsFor(column: Option<int>, minWidth: int): (g: GridColumns)
    ensures g.Repeat? <==> column.Some? && column.value != 0
    ensures g.Repeat? ==> g.count == column.value
    ensures g.AutoFill? ==> g.minWidthPx == minWidth
  {
    if column.Some? && column.value != 0 then Repeat(column.value) else AutoFill(minWidth)
  }

  /** The layout the style sheet gives the list: its column template and its gap. */
  datatype Layout = Layout(columns: GridColumns, gapPx: int)

  class NotesContainer {
    /** `_column`: `None` stands for `null`. */
    var column: Option<int>
    var gutter: int
    var minWidth: int

    constructor ()
      ensures column == None && gutter == 24 && minWidth == 320
      ensures CurrentLayout() == Layout(AutoFill(320), 24)
    {
      column, gutter, minWidth := None, 24, 320;
    }

    /** What `_updateStyle` writes, as a function of the three settings. */
    function CurrentLayout(): Layout
      reads this
    {
      Layout(GridColumnsFor(column, minWidth), gutter)
    }

    /** `null` clears the column count, an integer sets it, anything else is ignored. */
    method SetColumn(arg: SetterArg)
      modifies this`column
      ensures arg == Null ==> column == None
      ensures arg.Converted? && arg.number.Integer? ==> column == Some(arg.number.i)
      ensures arg.Converted? && !arg.number.Integer? ==> column == old(column)
      ensures arg == Null || arg == Converted(Integer(0)) ==> CurrentLayout() == Layout(AutoFill(minWidth), gutter)
      ensures arg.Converted? && arg.number.Integer? && arg.number.i != 0 ==>
        CurrentLayout() == Layout(Repeat(arg.number.i), gutter)
    {
      var newValue := ToNumber(arg);
      if !IsValidInteger(newValue) && arg != Null {
        return;
      }
      column := if arg == Null then None else Some(newValue.i);
    }

    /** An integer (and `null`, which converts to 0) is stored; anything else is ignored. */
    method SetGutter(arg: SetterArg)
      modifies this`gutter
      ensures IsValidInteger(ToNumber(arg)) ==> gutter == ToNumber(arg).i
      ensures !IsValidInteger(ToNumber(arg)) ==> gutter == old(gutter)
      ensures arg == Null ==> gutter == 0
    {
      var newValue := ToNumber(arg);
      if !IsValidInteger(newValue) {
        return;
      }
      gutter := newValue.i;
    }

    method SetMinWidth(arg: SetterArg)
      modifies this`minWidth
      ensures IsValidInteger(ToNumber(arg)) ==> minWidth == ToNumber(arg).i
      ensures !IsValidInteger(ToNumber(arg)) ==> minWidth == old(minWidth)
      ensures arg == Null ==> minWidth == 0
    {
      var newValue := ToNumber(arg);
      if !IsValidInteger(newValue) {
        return;
      }
      minWidth := newValue.i;
    }

    /** Unchanged texts are ignored; `column="auto"` (like a removed `column`) clears the count. */
    method AttributeChangedCallback(name: string, oldValue: AttrValue, newValue: AttrValue)
      modifies this`column, this`gutter, this`minWidth
      ensures AttrText(oldValue) == AttrText(newValue) || name !in {"column", "gutter", "min-width"}
              ==> unchanged(this)
      ensures AttrText(oldValue) != AttrText(newValue) && name == "column" ==>
        && gutter == old(gutter) && minWidth == old(minWidth)
        && column == (if newValue == Absent || newValue.text == "auto" then None
                      else if newValue.number.Integer? then Some(newValue.number.i)
                      else old(column))
      ensures AttrText(oldValue) != AttrText(newValue) && name == "gutter" ==>
        && column == old(column) && minWidth == old(minWidth)
        && gutter == (if IsValidInteger(ToNumber(AsSetterArg(newValue))) then ToNumber(AsSetterArg(newValue)).i
                      else old(gutter))
      ensures AttrText(oldValue) != AttrText(newValue) && name == "min-width" ==>
        && column == old(column) && gutter == old(gutter)
        && minWidth == (if IsValidInteger(ToNumber(AsSetterArg(newValue))) then ToNumber(AsSetterArg(newValue)).i
                        else old(minWidth))
      ensures AttrText(oldValue) != AttrText(newValue) && name == "column"
              && (newValue == Absent || newValue.text == "auto" || newValue.number == Integer(0))
              ==> CurrentLayout() == Layout(AutoFill(old(minWidth)), old(gutter))
    {
      if AttrText(oldValue) == AttrText(newValue) {
        return;
      }
      match name {
        case "column" =>
          SetColumn(if newValue.Text? && newValue.text == "auto" then Null else AsSetterArg(newValue));
        case "gutter" => SetGutter(AsSetterArg(newValue));
        case "min-width" => SetMinWidth(AsSetterArg(newValue));
        case _ =>
      }
    }
  }

  /** A column count of 0 is falsy, so it falls back to auto-fill like `null` does. */
  lemma ZeroColumnFallsBack(minWidth: int)
    ensures GridColumnsFor(Some(0), minWidth) == GridColumnsFor(None, minWidth) == AutoFill(minWidth)
  {
  }
}
