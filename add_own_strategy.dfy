/** The "Add Your Own Strategy" dialog (components/addOwnStrategy.tsx): a form whose
    Save appends a strategy to the "ownStrategies" list in the store. */
module AddOwnStrategy {
  import opened Wrappers
  import opened LocalStorage

  /** The message shown when Save is pressed with a field left blank. */
  const MissingFieldsError: string := "All fields must be filled."

  /** `!title || !description || !content || !image`: an empty string and a missing
      image are falsy. */
  predicate MissingField(title: string, description: string, content: string, image: Option<string>)
  {
    title == "" || description == "" || content == "" || image.None? || image.value == ""
  }

  /** The list Save writes: the stored list (`[]` when the key is missing) with the
      new strategy pushed at the end. */
  function SavedList(stored: Option<seq<UserStrategy>>, strategy: UserStrategy): (r: seq<UserStrategy>)
    ensures |r| == |stored.GetOr([])| + 1
    ensures r[..|r| - 1] == stored.GetOr([]) && r[|r| - 1] == strategy
  {
    stored.GetOr([]) + [strategy]
  }

  /** The dialog's state, with the store it writes. */
  class StrategyForm {
    const store: Store
    var showDialog: bool
    var title: string
    var description: string
    var content: string
    var image: Option<string>
    var error: string

    constructor (store: Store)
      ensures this.store == store && !showDialog
      ensures title == "" && description == "" && content == "" && image == None && error == ""
    {
      this.store := store;
      showDialog := false;
      title, description, content := "", "", "";
      image := None;
      error := "";
    }

    /** The floating + button. */
    method OpenDialog()
      modifies this`showDialog
      ensures showDialog
    {
      showDialog := true;
    }

    /** Typing into the three text fields. */
    method SetFields(title: string, description: string, content: string)
      modifies this`title, this`description, this`content
      ensures this.title == title && this.description == description && this.content == content
    {
      this.title, this.description, this.content := title, description, content;
    }

    /** The image input, once the file reader has produced the data URL `dataUrl`. */
    method SetImage(dataUrl: string)
      modifies this`image
      ensures image == Some(dataUrl)
    {
      image := Some(dataUrl);
    }

    /** `handleSave`, with `now` the `Date.now()` that becomes the strategy's id. */
    method HandleSave(now: int)
      modifies this, store`ownStrategies
      ensures MissingField(old(title), old(description), old(content), old(image)) ==>
        && error == MissingFieldsError
        && title == old(title) && description == old(description) && content == old(content)
        && image == old(image) && showDialog == old(showDialog)
        && unchanged(store)
      ensures !MissingField(old(title), old(description), old(content), old(image)) ==>
        && store.ownStrategies == Some(SavedList(old(store.ownStrategies),
             UserStrategy(now, old(title), old(description), old(content), old(image).value)))
        && !showDialog && title == "" && description == "" && content == ""
        && image == None && error == ""
    {
      if MissingField(title, description, content, image) {
        error := MissingFieldsError;
        return;
      }
      var strategy := UserStrategy(now, title, description, content, image.value);
      var existingStrategies := store.StoredStrategies();
      existingStrategies := existingStrategies + [strategy];
      store.ownStrategies := Some(existingStrategies);
      showDialog := false;
      title := "";
      description := "";
      content := "";
      image := None;
      error := "";
    }
  }
}
