/**
 * The non-visual part of the task form: its five pieces of state, the
 * handlers that update them, and the `save` rule that either rejects the
 * form (an alert) or emits a trimmed payload.
 */
module TaskModal {
  import opened Wrappers
  import opened Strings
  import Storage

  /** The `initial` prop: a task being edited; every field is optional. */
  datatype Initial = Initial(id: Option<int>, title: Option<string>, category: Option<string>,
                             image: Storage.ImageField)

  /** What `onSave` receives. */
  datatype Payload = Payload(id: Option<int>, title: string, category: string, image: Option<string>)

  /** The two alerts `save` can raise instead of emitting. */
  datatype Rejection = TitleRequired | CategoryRequired

  datatype SaveResult = Rejected(reason: Rejection) | Emitted(payload: Payload)

  /** `initial?.id` */
  function IdOf(initial: Option<Initial>): Option<int> {
    match initial
    case None => None
    case Some(i) => i.id
  }

  class Form {
    var title: string
    var selectedCategory: string
    var newCategory: string
    var imageUri: Option<string>
    var imageUrlInput: string

    /** The initial `useState` values. */
    constructor ()
      ensures title == "" && selectedCategory == "" && newCategory == ""
      ensures imageUri == None && imageUrlInput == ""
    {
      title, selectedCategory, newCategory := "", "", "";
      imageUri, imageUrlInput := None, "";
    }

    /** At most one of the two category inputs holds text. */
    predicate CategoriesExclusive()
      reads this
    {
      selectedCategory == "" || newCategory == ""
    }

    /**
     * The effect run when the form opens or `initial` changes. Without
     * `initial` every field is cleared; with it, title, category and image
     * are loaded and the typed new category is kept as it was.
     */
    method Reset(initial: Option<Initial>)
      modifies this
      ensures initial.None? ==>
                title == "" && selectedCategory == "" && newCategory == ""
                && imageUri == None && imageUrlInput == ""
      ensures initial.Some? ==>
                && title == initial.value.title.GetOr("")
                && selectedCategory == initial.value.category.GetOr("")
                && newCategory == old(newCategory)
                && imageUri == initial.value.image.OrNull()
                && imageUrlInput == initial.value.image.OrNull().GetOr("")
      ensures initial.None? ==> CategoriesExclusive()
      ensures initial.Some? ==>
                (CategoriesExclusive() <==> initial.value.category.GetOr("") == "" || old(newCategory) == "")
    {
      match initial
      case Some(i) =>
        title := i.title.GetOr("");
        selectedCategory := i.category.GetOr("");
        imageUri := i.image.OrNull();
        imageUrlInput := i.image.OrNull().GetOr("");
      case None =>
        title := "";
        selectedCategory := "";
        newCategory := "";
        imageUri := None;
        imageUrlInput := "";
    }

    /** Typing into the title field. */
    method ChangeTitle(text: string)
      modifies this
      ensures title == text
      ensures selectedCategory == old(selectedCategory) && newCategory == old(newCategory)
      ensures imageUri == old(imageUri) && imageUrlInput == old(imageUrlInput)
    {
      title := text;
    }

    /** Pressing a listed category selects it and clears the typed one. */
    method PressCategory(item: string)
      modifies this
      ensures selectedCategory == item && newCategory == ""
      ensures title == old(title) && imageUri == old(imageUri) && imageUrlInput == old(imageUrlInput)
      ensures CategoriesExclusive()
    {
      selectedCategory := item;
      newCategory := "";
    }

    /** Typing a new category; non-empty text deselects the listed category. */
    method ChangeNewCategory(text: string)
      modifies this
      ensures newCategory == text
      ensures selectedCategory == if text != "" then "" else old(selectedCategory)
      ensures title == old(title) && imageUri == old(imageUri) && imageUrlInput == old(imageUrlInput)
      ensures CategoriesExclusive()
    {
      newCategory := text;
      if text != "" {
        selectedCategory := "";
      }
    }

    /**
     * What the image picker hands back: `picked` is the URI it returned, if
     * any. Only a non-empty URI is taken, into both image fields; a denied
     * permission, a missing picker or a cancelled pick arrive as `None` and
     * change nothing.
     */
    method PickImage(picked: Option<string>)
      modifies this
      ensures picked.Some? && picked.value != "" ==>
                imageUri == Some(picked.value) && imageUrlInput == picked.value
      ensures !(picked.Some? && picked.value != "") ==>
                imageUri == old(imageUri) && imageUrlInput == old(imageUrlInput)
      ensures title == old(title) && selectedCategory == old(selectedCategory)
      ensures newCategory == old(newCategory)
    {
      if picked.Some? && picked.value != "" {
        imageUri := Some(picked.value);
        imageUrlInput := picked.value;
      }
    }

    /** The remove button under the preview clears both image fields. */
    method RemoveImage()
      modifies this
      ensures imageUri == None && imageUrlInput == ""
      ensures title == old(title) && selectedCategory == old(selectedCategory)
      ensures newCategory == old(newCategory)
    {
      imageUri := None;
      imageUrlInput := "";
    }

    /** Typing into the image URL field. */
    method ChangeImageUrl(text: string)
      modifies this
      ensures imageUrlInput == text
      ensures title == old(title) && selectedCategory == old(selectedCategory)
      ensures newCategory == old(newCategory) && imageUri == old(imageUri)
    {
      imageUrlInput := text;
    }

    /**
     * `save`: a blank title is rejected first, then a blank chosen category
     * (the listed one if non-empty, else the typed one). Otherwise the
     * payload carries the trimmed title and category, the id of `initial`
     * unchanged, and the trimmed URL input if non-empty, else the picked URI.
     */
    method Save(initial: Option<Initial>) returns (r: SaveResult)
      ensures r == Rejected(TitleRequired) <==> AllWhitespace(title)
      ensures r == Rejected(CategoryRequired) <==>
                !AllWhitespace(title)
                && AllWhitespace(if selectedCategory != "" then selectedCategory else newCategory)
      ensures r.Emitted? ==>
                && r.payload.id == IdOf(initial)
                && r.payload.title == Trim(title)
                && r.payload.category == Trim(if selectedCategory != "" then selectedCategory else newCategory)
                && r.payload.image == if imageUrlInput != "" then Some(Trim(imageUrlInput)) else imageUri
      ensures r.Emitted? ==>
                && r.payload.title != "" && IsTrimmed(r.payload.title)
                && r.payload.category != "" && IsTrimmed(r.payload.category)
    {
      var t := Trim(title);
      if t == "" {
        return Rejected(TitleRequired);
      }
      var category := if selectedCategory != "" then selectedCategory else newCategory;
      var c := Trim(category);
      if c == "" {
        return Rejected(CategoryRequired);
      }
      var image := if imageUrlInput != "" then Some(Trim(imageUrlInput)) else imageUri;
      r := Emitted(Payload(IdOf(initial), t, c, image));
    }
  }
}
