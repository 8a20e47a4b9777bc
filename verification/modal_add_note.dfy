/**
 * The `modal-add-note` element: an open/closed dialog holding a two-field
 * form, a validator that flags each empty field, and a save step that
 * dispatches `note-save` only for a valid form.
 */
module Modal {
  import opened Notes
  import opened Text

  /** The `maxlength` attributes of the title input and the content textarea. */
  const TitleMaxLength := 100
  const ContentMaxLength := 1000

  datatype Field = TitleField | ContentField

  function MaxLength(f: Field): nat {
    match f
    case TitleField => TitleMaxLength
    case ContentField => ContentMaxLength
  }

  /** What a field holds after the user enters `typed`: the browser keeps at most `n` characters. */
  function Limit(typed: string, n: nat): (r: string)
    ensures |r| <= n && r <= typed
    ensures |typed| <= n ==> r == typed
    ensures |typed| > n ==> |r| == n
  {
    if |typed| <= n then typed else typed[..n]
  }

  /** The form is valid when neither trimmed field is empty. */
  predicate FormValid(title: string, content: string) {
    Trim(title) != "" && Trim(content) != ""
  }

  /** A field fails validation exactly when it holds nothing but white space. */
  lemma FormValidIffNotBlank(title: string, content: string)
    ensures FormValid(title, content) <==> !Blank(title) && !Blank(content)
  {
    TrimEmptyIffBlank(title);
    TrimEmptyIffBlank(content);
  }

  /**
   * The `note-save` payload of a valid form: both parts non-empty, without
   * surrounding white space, already trimmed, and no longer than the field.
   */
  lemma SavedPayloadIsClean(title: string, content: string)
    requires FormValid(title, content)
    ensures var t := Trim(title);
            t != "" && !IsWhitespace(t[0]) && !IsWhitespace(t[|t| - 1]) && Trim(t) == t && |t| <= |title|
    ensures var c := Trim(content);
            c != "" && !IsWhitespace(c[0]) && !IsWhitespace(c[|c| - 1]) && Trim(c) == c && |c| <= |content|
  {
    TrimHasNoOuterSpace(title);
    TrimIdempotent(title);
    TrimHasNoOuterSpace(content);
    TrimIdempotent(content);
  }

  class ModalAddNote {
    /** `_isOpen`; the `open` attribute is set and removed together with it. */
    var isOpen: bool
    /** The values of `#noteTitle` and `#noteContent`. */
    var titleValue: string
    var contentValue: string
    /** A field's error state: its `error` class and the `show` class of its message move together. */
    var titleError: bool
    var contentError: bool

    /** The inputs never hold more than their `maxlength`. */
    ghost predicate Valid()
      reads this
    {
      |titleValue| <= TitleMaxLength && |contentValue| <= ContentMaxLength
    }

    /** A rendered, closed dialog with an empty form. */
    constructor ()
      ensures Valid()
      ensures !isOpen && titleValue == "" && contentValue == "" && !titleError && !contentError
    {
      isOpen := false;
      titleValue, contentValue := "", "";
      titleError, contentError := false, false;
    }

    method Open() returns (events: seq<Event>)
      modifies this`isOpen
      ensures isOpen && events == [ModalOpen]
    {
      isOpen := true;
      events := [ModalOpen];
    }

    /** Closing always resets the form. */
    method Close() returns (events: seq<Event>)
      modifies this
      ensures Valid()
      ensures !isOpen && events == [ModalClose]
      ensures titleValue == "" && contentValue == "" && !titleError && !contentError
    {
      isOpen := false;
      ResetForm();
      events := [ModalClose];
    }

    method Toggle() returns (events: seq<Event>)
      modifies this
      ensures isOpen == !old(isOpen)
      ensures events == if old(isOpen) then [ModalClose] else [ModalOpen]
      ensures old(isOpen) ==> Valid() && titleValue == "" && contentValue == "" && !titleError && !contentError
      ensures !old(isOpen) ==> titleValue == old(titleValue) && contentValue == old(contentValue)
                               && titleError == old(titleError) && contentError == old(contentError)
    {
      if isOpen {
        events := Close();
      } else {
        events := Open();
      }
    }

    method ResetForm()
      modifies this`titleValue, this`contentValue, this`titleError, this`contentError
      ensures Valid()
      ensures titleValue == "" && contentValue == "" && !titleError && !contentError
    {
      titleValue, contentValue := "", "";
      ClearErrors();
    }

    method ClearErrors()
      modifies this`titleError, this`contentError
      ensures !titleError && !contentError
    {
      titleError, contentError := false, false;
    }

    /** Clears the old flags, then flags each blank field on its own. */
    method ValidateForm() returns (isValid: bool)
      modifies this`titleError, this`contentError
      ensures isValid == FormValid(titleValue, contentValue)
      ensures titleError == (Trim(titleValue) == "") && contentError == (Trim(contentValue) == "")
    {
      var title, content := Trim(titleValue), Trim(contentValue);
      isValid := true;
      titleError, contentError := false, false;  // `_clearErrors()`
      if title == "" {
        titleError := true;
        isValid := false;
      }
      if content == "" {
        contentError := true;
        isValid := false;
      }
    }

    /** Saves the trimmed form and closes, or flags the blank fields and stays as it is. */
    method HandleSave() returns (events: seq<Event>)
      requires Valid()
      modifies this
      ensures Valid()
      ensures FormValid(old(titleValue), old(contentValue)) ==>
        && events == [NoteSave(Trim(old(titleValue)), Trim(old(contentValue))), ModalClose]
        && !isOpen && titleValue == "" && contentValue == "" && !titleError && !contentError
      ensures !FormValid(old(titleValue), old(contentValue)) ==>
        && events == [] && isOpen == old(isOpen)
        && titleValue == old(titleValue) && contentValue == old(contentValue)
        && titleError == (Trim(titleValue) == "") && contentError == (Trim(contentValue) == "")
    {
      var valid := ValidateForm();
      if !valid {
        return [];
      }
      var saved := NoteSave(Trim(titleValue), Trim(contentValue));
      var closed := Close();
      events := [saved] + closed;
    }

    /** The user enters `typed` into a field: the value is capped and only that field's error cleared. */
    method HandleInput(field: Field, typed: string)
      modifies this`titleValue, this`contentValue, this`titleError, this`contentError
      requires Valid()
      ensures Valid()
      ensures field == TitleField ==>
        titleValue == Limit(typed, TitleMaxLength) && !titleError
        && contentValue == old(contentValue) && contentError == old(contentError)
      ensures field == ContentField ==>
        contentValue == Limit(typed, ContentMaxLength) && !contentError
        && titleValue == old(titleValue) && titleError == old(titleError)
    {
      match field {
        case TitleField =>
          titleValue := Limit(typed, MaxLength(field));
          titleError := false;
        case ContentField =>
          contentValue := Limit(typed, MaxLength(field));
          contentError := false;
      }
    }

    /** The document-wide `keydown` handler: Escape closes, Ctrl/Meta+Enter saves, both only while open. */
    method HandleKeydown(key: string, ctrlKey: bool, metaKey: bool) returns (events: seq<Event>)
      requires Valid()
      modifies this
      ensures Valid()
      ensures !old(isOpen) || (key != "Escape" && key != "Enter") ==> events == [] && unchanged(this)
      ensures old(isOpen) && key == "Escape" ==>
        && events == [ModalClose] && !isOpen
        && titleValue == "" && contentValue == "" && !titleError && !contentError
      ensures old(isOpen) && key == "Enter" && !ctrlKey && !metaKey ==> events == [] && unchanged(this)
      ensures old(isOpen) && key == "Enter" && (ctrlKey || metaKey) && FormValid(old(titleValue), old(contentValue)) ==>
        && events == [NoteSave(Trim(old(titleValue)), Trim(old(contentValue))), ModalClose]
        && !isOpen && titleValue == "" && contentValue == "" && !titleError && !contentError
      ensures old(isOpen) && key == "Enter" && (ctrlKey || metaKey) && !FormValid(old(titleValue), old(contentValue)) ==>
        && events == [] && isOpen
        && titleValue == old(titleValue) && contentValue == old(contentValue)
        && titleError == (Trim(titleValue) == "") && contentError == (Trim(contentValue) == "")
    {
      events := [];
      if key == "Escape" && isOpen {
        events := Close();
      }
      if (ctrlKey || metaKey) && key == "Enter" && isOpen {
        events := HandleSave();
      }
    }
  }
}
