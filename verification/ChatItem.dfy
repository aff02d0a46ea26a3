/**
 * One row of the chat list: its action menu and its inline rename editor.
 * `title` is the chat's current title (the `chat.title` prop); the three
 * variables are the component's state.
 */
module ChatItem {
  import opened Wrappers
  import opened Strings

  /**
   * What `handleRename` passes to `onRename`: the trimmed text, when it is
   * not blank and the edited text differs from the current title.
   */
  function RenameRequest(editTitle: string, title: string): (r: Option<string>)
    ensures r.Some? <==> !IsBlank(editTitle) && editTitle != title
    ensures r.Some? ==> r.value != [] && !IsJsSpace(r.value[0]) && !IsJsSpace(r.value[|r.value| - 1])
    ensures r.Some? ==> r.value == Trim(editTitle)
  {
    var trimmed := Trim(editTitle);
    if trimmed != [] && editTitle != title then Some(trimmed) else None
  }

  /** An edited text that only adds spaces around the title still renames, to the trimmed title. */
  lemma PaddedTitleRenamesToItself(title: string)
    requires title != [] && !IsJsSpace(title[0]) && !IsJsSpace(title[|title| - 1])
    ensures RenameRequest(" " + title, title) == Some(title)
  {
    var e := " " + title;
    assert e[0] == ' ';
    assert e != title by {
      assert e[0] != title[0];
    }
    assert e[1..] == title;
    assert TrimStart(e) == TrimStart(title);
    assert TrimStart(title) == title;
    assert TrimEnd(title) == title;
  }

  class ChatItemState {
    /** The `chat.title` prop: the parent passes the current title on every render. */
    var title: string
    var showMenu: bool
    var isEditing: bool
    var editTitle: string

    /** The menu is never open while the editor is. */
    ghost predicate Valid()
      reads this
    {
      isEditing ==> !showMenu
    }

    constructor(title: string)
      ensures this.title == title && editTitle == title
      ensures !showMenu && !isEditing
      ensures Valid()
    {
      this.title := title;
      showMenu := false;
      isEditing := false;
      editTitle := title;
    }

    /** `handleRename`: maybe ask for a rename, then close the editor and the menu. */
    method HandleRename() returns (renamed: Option<string>)
      modifies this
      ensures renamed == RenameRequest(old(editTitle), title)
      ensures !isEditing && !showMenu && editTitle == old(editTitle) && title == old(title)
      ensures Valid()
    {
      var text, current := editTitle, title;
      var trimmed := Trim(text);
      renamed := None;
      if trimmed != [] && text != current {
        renamed := Some(trimmed);
      }
      isEditing := false;
      showMenu := false;
    }

    /** `handleCancelEdit`: restore the title into the editor and close it and the menu. */
    method HandleCancelEdit()
      modifies this
      ensures editTitle == title && title == old(title) && !isEditing && !showMenu
      ensures Valid()
    {
      editTitle := title;
      isEditing := false;
      showMenu := false;
    }

    /** `handleKeyPress`: Enter renames, Escape cancels, any other key does nothing. */
    method HandleKeyPress(key: string) returns (renamed: Option<string>)
      requires Valid()
      modifies this
      ensures title == old(title)
      ensures key == "Enter" ==> renamed == RenameRequest(old(editTitle), title) && !isEditing && !showMenu && editTitle == old(editTitle)
      ensures key == "Escape" ==> renamed == None && editTitle == title && !isEditing && !showMenu
      ensures key != "Enter" && key != "Escape" ==>
        renamed == None && editTitle == old(editTitle) && isEditing == old(isEditing) && showMenu == old(showMenu)
      ensures Valid()
    {
      renamed := None;
      if key == "Enter" {
        renamed := HandleRename();
      } else if key == "Escape" {
        HandleCancelEdit();
      }
    }

    /** The menu button, shown only while not editing, flips the menu. */
    method ToggleMenu()
      requires !isEditing
      modifies this
      ensures showMenu == !old(showMenu) && !isEditing && editTitle == old(editTitle) && title == old(title)
      ensures Valid()
    {
      showMenu := !showMenu;
    }

    /** "Düzenle" in the open menu: start editing and close the menu. */
    method ChooseEdit()
      requires showMenu
      modifies this
      ensures isEditing && !showMenu && editTitle == old(editTitle) && title == old(title)
      ensures Valid()
    {
      isEditing := true;
      showMenu := false;
    }

    /** "Sil" in the open menu: `onDelete` is called (the result) and the menu closes. */
    method ChooseDelete() returns (deleteRequested: bool)
      requires showMenu
      modifies this
      ensures deleteRequested
      ensures !showMenu && isEditing == old(isEditing) && editTitle == old(editTitle) && title == old(title)
    {
      deleteRequested := true;
      showMenu := false;
    }

    /** Typing in the editor, which is shown only while editing. */
    method EditText(text: string)
      requires isEditing && Valid()
      modifies this
      ensures editTitle == text && isEditing && !showMenu && title == old(title)
      ensures Valid()
    {
      editTitle := text;
    }

    /**
     * A re-render with a new `chat.title` prop, as after a successful rename.
     * The editor's text is state initialised once, so it keeps its value.
     */
    method SetTitle(newTitle: string)
      requires Valid()
      modifies this
      ensures title == newTitle
      ensures editTitle == old(editTitle) && isEditing == old(isEditing) && showMenu == old(showMenu)
      ensures Valid()
    {
      title := newTitle;
    }
  }
}
