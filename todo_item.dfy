/**
 * One row of the task list: its inline editor (whether it is editing, and
 * the draft text) and the actions it forwards to the list.
 */
module TodoRow {
  import opened Optional
  import opened Text

  /** A text the row forwards as an edit: non-blank and already trimmed. */
  predicate CleanEdit(text: string) {
    !IsBlank(text) && Trim(text) == text
  }

  /** Trimming a non-blank draft gives a clean edit. */
  lemma TrimmedDraftIsClean(draft: string)
    requires !IsBlank(draft)
    ensures CleanEdit(Trim(draft))
  {
    TrimIdempotent(draft);
  }

  class RowEditor {
    const todoId: int
    /** The record's text as last received from the list. */
    var todoText: string
    var isEditing: bool
    var editText: string

    /** Not editing; the draft starts as the record's text. */
    constructor(id: int, text: string)
      ensures todoId == id && todoText == text && !isEditing && editText == text
    {
      todoId := id;
      todoText := text;
      isEditing := false;
      editText := text;
    }

    /**
     * Confirming the draft. A non-blank draft is forwarded, trimmed, with the
     * record's id; a blank one is discarded and the draft reset. Editing
     * ends either way.
     */
    method HandleEdit() returns (edited: Option<(int, string)>)
      modifies this`isEditing, this`editText
      ensures !isEditing && todoText == old(todoText)
      ensures IsBlank(old(editText)) ==> edited == None && editText == todoText
      ensures !IsBlank(old(editText)) ==>
        edited == Some((todoId, Trim(old(editText)))) && editText == old(editText)
      ensures edited.Some? ==> CleanEdit(edited.value.1)
    {
      if !IsBlank(editText) {
        edited := Some((todoId, Trim(editText)));
        TrimmedDraftIsClean(editText);
        isEditing := false;
      } else {
        editText := todoText;
        isEditing := false;
        edited := None;
      }
    }

    /** Enter confirms like the confirm button; Escape discards the draft; other keys do nothing. */
    method HandleKeyDown(key: string) returns (edited: Option<(int, string)>)
      modifies this`isEditing, this`editText
      ensures todoText == old(todoText)
      ensures key == "Enter" && !IsBlank(old(editText)) ==>
        edited == Some((todoId, Trim(old(editText)))) && !isEditing && editText == old(editText)
      ensures key == "Enter" && IsBlank(old(editText)) ==>
        edited == None && !isEditing && editText == todoText
      ensures key == "Escape" ==> edited == None && !isEditing && editText == todoText
      ensures key != "Enter" && key != "Escape" ==>
        edited == None && isEditing == old(isEditing) && editText == old(editText)
    {
      edited := None;
      if key == "Enter" {
        edited := HandleEdit();
      }
      if key == "Escape" {
        editText := todoText;
        isEditing := false;
      }
    }

    /** The cancel button: the draft goes back to the record's text and editing ends. */
    method Cancel()
      modifies this`isEditing, this`editText
      ensures !isEditing && editText == todoText
    {
      editText := todoText;
      isEditing := false;
    }

    /** The edit button switches editing on and off. */
    method EditClick()
      modifies this`isEditing
      ensures isEditing == !old(isEditing)
    {
      isEditing := !isEditing;
    }

    /** A double click on the text starts editing; repeating it changes nothing more. */
    method DoubleClick()
      modifies this`isEditing
      ensures isEditing
    {
      isEditing := true;
    }

    /** Typing in the editor. */
    method SetEditText(text: string)
      modifies this`editText
      ensures editText == text
    {
      editText := text;
    }

    /**
     * The list passes the record again. Only a CHANGED text resets the
     * draft; the same text leaves a draft in progress alone.
     */
    method Rerender(text: string)
      modifies this`todoText, this`editText
      ensures todoText == text
      ensures editText == if text != old(todoText) then text else old(editText)
    {
      if text != todoText {
        editText := text;
      }
      todoText := text;
    }

    /** The completion checkbox forwards the record's id. */
    method HandleToggle() returns (id: int)
      ensures id == todoId
    {
      return todoId;
    }

    /** The delete button forwards the record's id. */
    method HandleDelete() returns (id: int)
      ensures id == todoId
    {
      return todoId;
    }
  }
}
