/**
 * The category page: the blank-name check (by JavaScript's `trim`) before a category is
 * added or renamed, and the updates to the `categories` list and to the two dialogs' state.
 */
module CategoryManagement {
  import opened Wrappers
  import opened Feedback
  import IdLists

  datatype Category = Category(id: string, name: string)

  function CategoryId(c: Category): string {
    c.id
  }

  const EmptyNameMessage := "Please enter a category name"

  // ---------------------------------------------------------------------------
  // String.prototype.trim
  // ---------------------------------------------------------------------------

  /** The characters `trim` strips: ECMAScript's WhiteSpace and LineTerminator code points. */
  predicate IsWhiteSpace(c: char) {
    || c == '\t' || c == '\n' || c == '\U{000B}' || c == '\U{000C}' || c == '\r' || c == ' '
    || c == '\U{00A0}' || c == '\U{1680}' || ('\U{2000}' <= c <= '\U{200A}')
    || c == '\U{2028}' || c == '\U{2029}' || c == '\U{202F}' || c == '\U{205F}'
    || c == '\U{3000}' || c == '\U{FEFF}'
  }

  predicate AllWhiteSpace(s: string) {
    forall i :: 0 <= i < |s| ==> IsWhiteSpace(s[i])
  }

  /** Where the text of `s` starts: the first position from `i` on that is not white space,
    * or `|s|`. */
  function TextStart(s: string, i: nat): (n: nat)
    requires i <= |s|
    ensures i <= n <= |s|
    ensures forall j :: i <= j < n ==> IsWhiteSpace(s[j])
    ensures n < |s| ==> !IsWhiteSpace(s[n])
    decreases |s| - i
  {
    if i == |s| || !IsWhiteSpace(s[i]) then i else TextStart(s, i + 1)
  }

  /** Where the text of `s[lo..e]` ends: just after its last position that is not white
    * space, or `lo`. */
  function TextEnd(s: string, lo: nat, e: nat): (n: nat)
    requires lo <= e <= |s|
    ensures lo <= n <= e
    ensures forall j :: n <= j < e ==> IsWhiteSpace(s[j])
    ensures n > lo ==> !IsWhiteSpace(s[n - 1])
    decreases e
  {
    if e == lo || !IsWhiteSpace(s[e - 1]) then e else TextEnd(s, lo, e - 1)
  }

  /** `s.trim()`: what lies between the leading and the trailing white space of `s`; it
    * starts at `k`, where the text of `s` starts. */
  function Trim(s: string): (r: string)
    ensures var k := TextStart(s, 0);
            && k + |r| <= |s| && r == s[k..k + |r|]
            && (forall i :: 0 <= i < k ==> IsWhiteSpace(s[i]))
            && (forall i :: k + |r| <= i < |s| ==> IsWhiteSpace(s[i]))
    ensures r != [] ==> !IsWhiteSpace(r[0]) && !IsWhiteSpace(r[|r| - 1])
    ensures r == [] <==> AllWhiteSpace(s)
  {
    var k := TextStart(s, 0);
    var e := TextEnd(s, k, |s|);
    assert e > k ==> s[k..e][0] == s[k] && s[k..e][e - k - 1] == s[e - 1];
    s[k..e]
  }

  /** Trimming twice is trimming once. */
  lemma TrimIdempotent(s: string)
    ensures Trim(Trim(s)) == Trim(s)
  {
    var r := Trim(s);
    if r != [] {
      assert TextStart(r, 0) == 0;
      assert TextEnd(r, 0, |r|) == |r|;
    }
  }

  /** The name check of both dialogs: refused exactly when the name is empty or all white space. */
  function NameError(name: string): (r: Option<string>)
    ensures r.None? <==> exists i :: 0 <= i < |name| && !IsWhiteSpace(name[i])
    ensures r.Some? ==> r.value == EmptyNameMessage
  {
    if Trim(name) == [] then Some(EmptyNameMessage) else None
  }

  /** A name with surrounding spaces passes, and is sent as typed. */
  lemma PaddedNamePasses()
    ensures NameError("  Drinks ").None? && NameError(" \t ").Some?
  {
    assert !IsWhiteSpace("  Drinks "[2]);
    assert AllWhiteSpace(" \t ");
  }

  /** Deleting the id of a category just appended, whose id was new, gives back the old list. */
  lemma {:induction false} DeleteUndoesAdd(cats: seq<Category>, added: Category)
    requires forall i :: 0 <= i < |cats| ==> cats[i].id != added.id
    ensures IdLists.RemoveById(cats + [added], CategoryId, added.id) == cats
  {
    IdLists.RemoveByIdAppend(cats, [added], CategoryId, added.id);
    IdLists.RemoveByIdAbsent(cats, CategoryId, added.id);
    assert IdLists.RemoveById([added], CategoryId, added.id) == [];
  }

  // ---------------------------------------------------------------------------
  // The page state
  // ---------------------------------------------------------------------------

  /** The category page's state. */
  class CategoryPage {
    var categories: seq<Category>
    var newCategoryName: string
    var editingCategory: Option<Category>
    var isModalOpen: bool
    var isEditModalOpen: bool

    constructor ()
      ensures categories == [] && newCategoryName == [] && editingCategory == None
      ensures !isModalOpen && !isEditModalOpen
    {
      categories := [];
      newCategoryName := [];
      editingCategory := None;
      isModalOpen := false;
      isEditModalOpen := false;
    }

    /** The list as the initial fetch returns it. */
    method Loaded(data: seq<Category>)
      modifies this
      ensures categories == data
      ensures newCategoryName == old(newCategoryName) && editingCategory == old(editingCategory)
      ensures isModalOpen == old(isModalOpen) && isEditModalOpen == old(isEditModalOpen)
    {
      categories := data;
    }

    /** The "Add Category" button. */
    method OpenAdd()
      modifies this
      ensures isModalOpen
      ensures categories == old(categories) && newCategoryName == old(newCategoryName)
      ensures editingCategory == old(editingCategory) && isEditModalOpen == old(isEditModalOpen)
    {
      isModalOpen := true;
    }

    /** Typing in the add dialog. */
    method ChangeNewName(value: string)
      modifies this
      ensures newCategoryName == value
      ensures categories == old(categories) && editingCategory == old(editingCategory)
      ensures isModalOpen == old(isModalOpen) && isEditModalOpen == old(isEditModalOpen)
    {
      newCategoryName := value;
    }

    /** `handleAddCategory`, with the POST's created category as `created` (`None` when the
      * request fails). Returns the name sent, which is the untrimmed text. */
    method AddCategory(created: Option<Category>) returns (sent: Option<string>, notice: Notice)
      modifies this
      ensures NameError(old(newCategoryName)).Some? ==>
                && sent == None && notice == Error(EmptyNameMessage)
                && categories == old(categories) && newCategoryName == old(newCategoryName)
                && isModalOpen == old(isModalOpen)
      ensures NameError(old(newCategoryName)).None? ==> sent == Some(old(newCategoryName))
      ensures NameError(old(newCategoryName)).None? && created.None? ==>
                && notice == Error("Failed to add category")
                && categories == old(categories) && newCategoryName == old(newCategoryName)
                && isModalOpen == old(isModalOpen)
      ensures NameError(old(newCategoryName)).None? && created.Some? ==>
                && notice == Success("Category added successfully")
                && categories == old(categories) + [created.value]
                && newCategoryName == [] && !isModalOpen
      ensures editingCategory == old(editingCategory) && isEditModalOpen == old(isEditModalOpen)
    {
      var err := NameError(newCategoryName);
      if err.Some? {
        return None, Error(err.value);
      }
      sent := Some(newCategoryName);
      if created.None? {
        return sent, Error("Failed to add category");
      }
      categories := categories + [created.value];
      isModalOpen := false;
      newCategoryName := [];
      notice := Success("Category added successfully");
    }

    /** Cancelling the add dialog closes it and empties the name. */
    method CancelAdd()
      modifies this
      ensures !isModalOpen && newCategoryName == []
      ensures categories == old(categories) && editingCategory == old(editingCategory)
      ensures isEditModalOpen == old(isEditModalOpen)
    {
      isModalOpen := false;
      newCategoryName := [];
    }

    /** A row's "Edit" button. */
    method OpenEdit(category: Category)
      modifies this
      ensures editingCategory == Some(category) && isEditModalOpen
      ensures categories == old(categories) && newCategoryName == old(newCategoryName)
      ensures isModalOpen == old(isModalOpen)
    {
      editingCategory := Some(category);
      isEditModalOpen := true;
    }

    /** Typing in the edit dialog renames the category being edited; with none, nothing changes. */
    method ChangeEditingName(value: string)
      modifies this
      ensures editingCategory == if old(editingCategory).Some? then Some(old(editingCategory).value.(name := value))
                                 else None
      ensures categories == old(categories) && newCategoryName == old(newCategoryName)
      ensures isModalOpen == old(isModalOpen) && isEditModalOpen == old(isEditModalOpen)
    {
      if editingCategory.Some? {
        editingCategory := Some(editingCategory.value.(name := value));
      }
    }

    /** `handleEditCategory`, with the PUT's updated category as `updated` (`None` when the
      * request fails). Returns the id and the untrimmed name sent. */
    method EditCategory(updated: Option<Category>) returns (sent: Option<Category>, notice: Notice)
      modifies this
      ensures (old(editingCategory).None? || NameError(old(editingCategory).value.name).Some?) ==>
                && sent == None && notice == Error(EmptyNameMessage)
                && categories == old(categories) && editingCategory == old(editingCategory)
                && isEditModalOpen == old(isEditModalOpen)
      ensures old(editingCategory).Some? && NameError(old(editingCategory).value.name).None? ==>
                && sent == old(editingCategory)
                && (updated.None? ==>
                      && notice == Error("Failed to update category")
                      && categories == old(categories) && editingCategory == old(editingCategory)
                      && isEditModalOpen == old(isEditModalOpen))
                && (updated.Some? ==>
                      && notice == Success("Category updated successfully")
                      && categories == IdLists.ReplaceById(old(categories), CategoryId,
                                                           old(editingCategory).value.id, updated.value)
                      && editingCategory == None && !isEditModalOpen)
      ensures newCategoryName == old(newCategoryName) && isModalOpen == old(isModalOpen)
    {
      if editingCategory.None? || NameError(editingCategory.value.name).Some? {
        return None, Error(EmptyNameMessage);
      }
      sent := editingCategory;
      if updated.None? {
        return sent, Error("Failed to update category");
      }
      categories := IdLists.ReplaceById(categories, CategoryId, editingCategory.value.id, updated.value);
      isEditModalOpen := false;
      editingCategory := None;
      notice := Success("Category updated successfully");
    }

    /** Cancelling the edit dialog closes it and forgets the category being edited. */
    method CancelEdit()
      modifies this
      ensures !isEditModalOpen && editingCategory == None
      ensures categories == old(categories) && newCategoryName == old(newCategoryName)
      ensures isModalOpen == old(isModalOpen)
    {
      isEditModalOpen := false;
      editingCategory := None;
    }

    /** The delete confirmation's OK handler; `confirmed` is whether the user pressed OK and
      * `responseOk` whether the DELETE succeeded. */
    method DeleteCategory(category: Category, confirmed: bool, responseOk: bool) returns (notice: Option<Notice>)
      modifies this
      ensures categories == if confirmed && responseOk then IdLists.RemoveById(old(categories), CategoryId, category.id)
                            else old(categories)
      ensures notice == if !confirmed then None
                        else if responseOk then Some(Success("Category deleted successfully"))
                        else Some(Error("Failed to delete category"))
      ensures newCategoryName == old(newCategoryName) && editingCategory == old(editingCategory)
      ensures isModalOpen == old(isModalOpen) && isEditModalOpen == old(isEditModalOpen)
    {
      if !confirmed {
        return None;
      }
      if !responseOk {
        return Some(Error("Failed to delete category"));
      }
      categories := IdLists.RemoveById(categories, CategoryId, category.id);
      notice := Some(Success("Category deleted successfully"));
    }
  }

}
