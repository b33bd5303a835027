/**
 * The menu page: the category tab filter and the sort by id, image paths turned into
 * asset URLs, the checks before an item is added or edited or an image is taken, the
 * resolution of a returned item's category, and the updates to the `menuItems` list.
 * Prices are in integer cents.
 */
module MenuManagement {
  import opened Wrappers
  import opened Feedback
  import IdLists

  datatype MenuCategory = MenuCategory(id: string, name: string)

  /** An item's category is either a bare id or a `{_id, name}` object. */
  datatype CategoryField = CategoryId(id: string) | CategoryObject(category: MenuCategory)

  /** The parts of a browser `File` that are looked at. */
  datatype FileInfo = FileInfo(name: string, mimeType: string, size: int)

  /** An item's image is either a stored path or a freshly picked file. */
  datatype ImageField = ImagePath(path: string) | ImageFile(file: FileInfo)

  datatype MenuItem = MenuItem(
    id: string,
    name: string,
    price: int,
    description: string,
    image: ImageField,
    category: CategoryField,
    isAvailable: bool)

  function ItemId(m: MenuItem): string {
    m.id
  }

  function CategoryKey(c: MenuCategory): string {
    c.id
  }

  /** The empty add form, as the page starts and after every successful add. */
  const BlankItem := MenuItem([], [], 0, [], ImagePath([]), CategoryId([]), true)

  // ---------------------------------------------------------------------------
  // Category normalisation
  // ---------------------------------------------------------------------------

  /** `typeof c === 'string' ? c : c._id`. */
  function CategoryIdOf(c: CategoryField): string {
    match c
    case CategoryId(id) => id
    case CategoryObject(cat) => cat.id
  }

  function ItemCategoryId(m: MenuItem): string {
    CategoryIdOf(m.category)
  }

  /** `handleEditClick`: the edit form gets the category as a bare id; nothing else changes. */
  function NormalizeCategory(item: MenuItem): (r: MenuItem)
    ensures r.category.CategoryId? && ItemCategoryId(r) == ItemCategoryId(item)
    ensures r.(category := item.category) == item
    ensures item.category.CategoryId? ==> r == item
  {
    item.(category := CategoryId(CategoryIdOf(item.category)))
  }

  // ---------------------------------------------------------------------------
  // Filter and sort
  // ---------------------------------------------------------------------------

  /** Order of `a.localeCompare(b) <= 0`, taken here as code-point lexicographic order. */
  predicate IdLessEq(a: string, b: string) {
    if a == [] then true
    else if b == [] then false
    else if a[0] != b[0] then a[0] < b[0]
    else IdLessEq(a[1..], b[1..])
  }

  lemma {:induction false} IdLessEqTotal(a: string, b: string)
    ensures IdLessEq(a, b) || IdLessEq(b, a)
  {
    if a != [] && b != [] && a[0] == b[0] {
      IdLessEqTotal(a[1..], b[1..]);
    }
  }

  lemma {:induction false} IdLessEqTransitive(a: string, b: string, c: string)
    requires IdLessEq(a, b) && IdLessEq(b, c)
    ensures IdLessEq(a, c)
  {
    if a != [] && b != [] && c != [] && a[0] == b[0] && b[0] == c[0] {
      IdLessEqTransitive(a[1..], b[1..], c[1..]);
    }
  }

  predicate SortedById(s: seq<MenuItem>) {
    forall i, j :: 0 <= i < j < |s| ==> IdLessEq(s[i].id, s[j].id)
  }

  /** A lower bound of every item in `s` and of `x` bounds every item of a list holding
    * exactly those. */
  lemma LowerBoundCarries(r: seq<MenuItem>, s: seq<MenuItem>, x: MenuItem, b: string)
    requires multiset(r) == multiset(s) + multiset{x}
    requires IdLessEq(b, x.id) && forall j :: 0 <= j < |s| ==> IdLessEq(b, s[j].id)
    ensures forall j :: 0 <= j < |r| ==> IdLessEq(b, r[j].id)
  {
    forall j | 0 <= j < |r|
      ensures IdLessEq(b, r[j].id)
    {
      assert r[j] in multiset(r);
      if r[j] != x {
        assert r[j] in multiset(s);
        var k :| 0 <= k < |s| && s[k] == r[j];
      }
    }
  }

  /** Puts `x` before the first item it does not come after, so equal ids keep input order. */
  function Insert(x: MenuItem, s: seq<MenuItem>): (r: seq<MenuItem>)
    requires SortedById(s)
    ensures SortedById(r)
    ensures multiset(r) == multiset(s) + multiset{x}
  {
    if s == [] then [x]
    else if IdLessEq(x.id, s[0].id) then
      assert forall j :: 0 <= j < |s| ==> IdLessEq(x.id, s[j].id) by {
        forall j | 0 <= j < |s|
          ensures IdLessEq(x.id, s[j].id)
        {
          if j > 0 { IdLessEqTransitive(x.id, s[0].id, s[j].id); }
        }
      }
      [x] + s
    else
      var rest := Insert(x, s[1..]);
      IdLessEqTotal(x.id, s[0].id);
      LowerBoundCarries(rest, s[1..], x, s[0].id);
      assert s == [s[0]] + s[1..];
      [s[0]] + rest
  }

  /** The effect of `Array.prototype.sort` with the id comparator (a stable sort). */
  function SortById(s: seq<MenuItem>): (r: seq<MenuItem>)
    ensures SortedById(r)
    ensures multiset(r) == multiset(s)
  {
    if s == [] then []
    else
      assert s == [s[0]] + s[1..];
      Insert(s[0], SortById(s[1..]))
  }

  /** `filteredItems`: every item on the "all" tab, otherwise those whose category id is the
    * tab's; then sorted ascending by id. */
  function FilteredItems(items: seq<MenuItem>, active: string): (r: seq<MenuItem>)
    ensures SortedById(r)
    ensures active == "all" ==> multiset(r) == multiset(items)
    ensures active != "all" ==> multiset(r) == multiset(IdLists.KeepById(items, ItemCategoryId, active))
    ensures forall x :: x in r <==> x in items && (active == "all" || ItemCategoryId(x) == active)
  {
    var picked := if active == "all" then items else IdLists.KeepById(items, ItemCategoryId, active);
    var r := SortById(picked);
    assert forall x :: x in r <==> x in picked by {
      forall x
        ensures x in r <==> x in picked
      {
        assert x in r <==> x in multiset(r);
        assert x in picked <==> x in multiset(picked);
      }
    }
    r
  }

  /** Normalising categories for editing does not move an item between tabs. */
  lemma NormalizeKeepsTab(items: seq<MenuItem>, active: string, item: MenuItem)
    ensures NormalizeCategory(item) in FilteredItems(items + [NormalizeCategory(item)], active)
            <==> item in FilteredItems(items + [item], active)
  {
    assert item in items + [item];
    assert NormalizeCategory(item) in items + [NormalizeCategory(item)];
  }

  // ---------------------------------------------------------------------------
  // Image URLs and uploads
  // ---------------------------------------------------------------------------

  /** `path.replace(/\\/g, '/')`. */
  function NormalizeSlashes(p: string): (r: string)
    ensures |r| == |p|
    ensures forall i :: 0 <= i < |p| ==> r[i] == if p[i] == '\\' then '/' else p[i]
  {
    if p == [] then [] else [if p[0] == '\\' then '/' else p[0]] + NormalizeSlashes(p[1..])
  }

  /** `getImageUrl`: "" for an empty path, the object URL for a file, otherwise the asset base,
    * a slash, and the path with backslashes turned into slashes and one leading slash dropped. */
  function ImageUrl(base: string, image: ImageField, objectUrl: string): (r: string)
    ensures image == ImagePath([]) ==> r == []
    ensures image.ImageFile? ==> r == objectUrl
    ensures image.ImagePath? && image.path != [] ==>
              && |r| == |base| + 1 + |image.path| - (if image.path[0] in "/\\" then 1 else 0)
              && r[..|base| + 1] == base + "/"
  {
    match image
    case ImageFile(_) => objectUrl
    case ImagePath(p) =>
      if p == [] then []
      else
        var normalized := NormalizeSlashes(p);
        var clean := if normalized[0] == '/' then normalized[1..] else normalized;
        base + "/" + clean
  }

  /** After the base and its slash, the URL is the path with backslashes turned into slashes,
    * less one leading slash or backslash. */
  lemma ImageUrlPathChars(base: string, p: string, objectUrl: string)
    requires p != []
    ensures var r := ImageUrl(base, ImagePath(p), objectUrl);
            var k := if p[0] in "/\\" then 1 else 0;
            forall i :: k <= i < |p| ==> r[|base| + 1 + i - k] == if p[i] == '\\' then '/' else p[i]
  {
  }

  /** A path written with backslashes gives the same URL as the same path with slashes. */
  lemma ImageUrlIgnoresSlashStyle(base: string, p: string, objectUrl: string)
    ensures ImageUrl(base, ImagePath(p), objectUrl) == ImageUrl(base, ImagePath(NormalizeSlashes(p)), objectUrl)
  {
    var n := NormalizeSlashes(p);
    assert NormalizeSlashes(n) == n;
  }

  /** A leading slash is dropped: "/x" and "x" give the same URL. */
  lemma ImageUrlDropsLeadingSlash(base: string, q: string, objectUrl: string)
    requires q != [] && q[0] != '/' && q[0] != '\\'
    ensures ImageUrl(base, ImagePath("/" + q), objectUrl) == ImageUrl(base, ImagePath(q), objectUrl)
  {
    var one := "/" + q;
    assert one[1..] == q;
    var n1 := NormalizeSlashes(one);
    assert n1 == "/" + NormalizeSlashes(q);
    assert n1[1..] == NormalizeSlashes(q);
    assert ImageUrl(base, ImagePath(one), objectUrl) == base + "/" + NormalizeSlashes(q);
    assert NormalizeSlashes(q)[0] != '/';
  }

  /** Only one leading slash is dropped: "//x" keeps the second one. */
  lemma ImageUrlKeepsSecondSlash(base: string, q: string, objectUrl: string)
    requires q != [] && q[0] != '/' && q[0] != '\\'
    ensures ImageUrl(base, ImagePath("//" + q), objectUrl) == base + "/" + ("/" + NormalizeSlashes(q))
  {
    var one := "/" + q;
    var two := "/" + one;
    assert two == "//" + q;
    assert one[1..] == q && two[1..] == one;
    var n1 := NormalizeSlashes(one);
    var n2 := NormalizeSlashes(two);
    assert n1 == "/" + NormalizeSlashes(q);
    assert n2 == "/" + n1;
    assert n2[1..] == n1;
  }

  const MaxImageBytes := 5 * 1024 * 1024

  predicate StartsWith(s: string, prefix: string) {
    |prefix| <= |s| && s[..|prefix|] == prefix
  }

  /** The checks of `handleImageUpload`: an image MIME type, then at most 5 MiB. */
  function ImageUploadError(file: FileInfo): (r: Option<string>)
    ensures r.None? <==> StartsWith(file.mimeType, "image/") && file.size <= 5242880
    ensures r.Some? ==> r.value == (if !StartsWith(file.mimeType, "image/") then "Please upload an image file"
                                     else "Image size cannot exceed 5MB")
  {
    if !StartsWith(file.mimeType, "image/") then Some("Please upload an image file")
    else if file.size > MaxImageBytes then Some("Image size cannot exceed 5MB")
    else None
  }

  // ---------------------------------------------------------------------------
  // Add and edit: checks, form, category resolution
  // ---------------------------------------------------------------------------

  const MissingFieldsMessage := "Please fill in all required fields and upload an image"
  const NotAFileMessage := "Please upload an image"
  const InvalidIdMessage := "Invalid item ID"

  /** The checks of `handleAddItem`: every field filled in (a price of 0 counts as missing),
    * then the image must be a picked file rather than a stored path. */
  function AddItemError(item: MenuItem): (r: Option<string>)
    ensures r.None? <==>
              (item.name != [] && item.price != 0 && item.category != CategoryId([]) && item.image.ImageFile?)
    ensures r == Some(NotAFileMessage) <==>
              (item.name != [] && item.price != 0 && item.category != CategoryId([])
               && item.image.ImagePath? && item.image.path != [])
    ensures r.Some? ==> r.value == MissingFieldsMessage || r.value == NotAFileMessage
  {
    if item.name == [] || item.price == 0 || item.category == CategoryId([]) || item.image == ImagePath([]) then
      Some(MissingFieldsMessage)
    else if !item.image.ImageFile? then Some(NotAFileMessage)
    else None
  }

  /** The blank form is always refused. */
  lemma BlankItemRefused()
    ensures AddItemError(BlankItem) == Some(MissingFieldsMessage)
  {
  }

  /** The multipart form: the category goes as its id, the image only when it is a file. */
  datatype ItemForm = ItemForm(
    name: string,
    description: string,
    price: int,
    category: string,
    isAvailable: bool,
    image: Option<FileInfo>)

  function FormOf(item: MenuItem): (f: ItemForm)
    ensures f.category == ItemCategoryId(item) && f.category == ItemCategoryId(NormalizeCategory(item))
    ensures f.image.Some? <==> item.image.ImageFile?
    ensures f.image.Some? ==> item.image == ImageFile(f.image.value)
  {
    ItemForm(item.name, item.description, item.price, CategoryIdOf(item.category), item.isAvailable,
             if item.image.ImageFile? then Some(item.image.file) else None)
  }

  /** `returned.category._id || returned.category`: the id to look up, or `None` when the
    * category is an object with an empty id (the object itself then equals no id). */
  function ReturnedCategoryKey(c: CategoryField): Option<string> {
    match c
    case CategoryId(id) => Some(id)
    case CategoryObject(cat) => if cat.id != [] then Some(cat.id) else None
  }

  /** The returned item with its category replaced by the first matching `{_id, name}` of the
    * page's category list, or left as the server sent it when none matches. */
  function ResolveCategory(cats: seq<MenuCategory>, returned: MenuItem): (r: MenuItem)
    ensures r.(category := returned.category) == returned
    ensures r.category != returned.category ==>
              && r.category.CategoryObject? && r.category.category in cats
              && ReturnedCategoryKey(returned.category) == Some(r.category.category.id)
    ensures (ReturnedCategoryKey(returned.category).None?
             || forall i :: 0 <= i < |cats| ==> cats[i].id != ReturnedCategoryKey(returned.category).value)
            ==> r == returned
    ensures forall i :: 0 <= i < |cats| && ReturnedCategoryKey(returned.category) == Some(cats[i].id)
                        && (forall j :: 0 <= j < i ==> cats[j].id != cats[i].id) ==>
              r.category == CategoryObject(MenuCategory(cats[i].id, cats[i].name))
    ensures ItemCategoryId(r) == ItemCategoryId(returned)
  {
    match ReturnedCategoryKey(returned.category)
    case None => returned
    case Some(k) =>
      var n := IdLists.FirstIndexOf(cats, CategoryKey, k);
      assert forall i :: 0 <= i < |cats| && k == cats[i].id && (forall j :: 0 <= j < i ==> cats[j].id != cats[i].id)
                         ==> i == n;
      if n < |cats| then returned.(category := CategoryObject(MenuCategory(cats[n].id, cats[n].name)))
      else returned
  }

  /** Resolving twice is resolving once. */
  lemma ResolveCategoryIdempotent(cats: seq<MenuCategory>, returned: MenuItem)
    ensures ResolveCategory(cats, ResolveCategory(cats, returned)) == ResolveCategory(cats, returned)
  {
    var once := ResolveCategory(cats, returned);
    if once != returned {
      var k := ReturnedCategoryKey(returned.category).value;
      var c := IdLists.FindById(cats, CategoryKey, k).value;
      assert c.id == k;
      if k != [] {
        assert ReturnedCategoryKey(once.category) == Some(k);
      }
    }
  }

  // ---------------------------------------------------------------------------
  // The page state
  // ---------------------------------------------------------------------------

  /** The menu page's state. */
  class MenuPage {
    var menuItems: seq<MenuItem>
    var menuCategories: seq<MenuCategory>
    var activeCategory: string
    var newItem: MenuItem
    var editingItem: Option<MenuItem>
    var isModalOpen: bool
    var isEditModalOpen: bool

    constructor ()
      ensures menuItems == [] && menuCategories == [] && activeCategory == "all"
      ensures newItem == BlankItem && editingItem == None && !isModalOpen && !isEditModalOpen
    {
      menuItems := [];
      menuCategories := [];
      activeCategory := "all";
      newItem := BlankItem;
      editingItem := None;
      isModalOpen := false;
      isEditModalOpen := false;
    }

    /** The menu fetch's `items`. */
    method ItemsFetched(items: seq<MenuItem>)
      modifies this
      ensures menuItems == items && menuCategories == old(menuCategories)
      ensures activeCategory == old(activeCategory) && newItem == old(newItem) && editingItem == old(editingItem)
      ensures isModalOpen == old(isModalOpen) && isEditModalOpen == old(isEditModalOpen)
    {
      menuItems := items;
    }

    /** The "Add New Item" button opens the add dialog. */
    method OpenAdd()
      modifies this
      ensures isModalOpen
      ensures menuItems == old(menuItems) && menuCategories == old(menuCategories)
      ensures activeCategory == old(activeCategory) && newItem == old(newItem) && editingItem == old(editingItem)
      ensures isEditModalOpen == old(isEditModalOpen)
    {
      isModalOpen := true;
    }

    /** Closing the add dialog keeps what was typed into the form. */
    method CloseAdd()
      modifies this
      ensures !isModalOpen
      ensures menuItems == old(menuItems) && menuCategories == old(menuCategories)
      ensures activeCategory == old(activeCategory) && newItem == old(newItem) && editingItem == old(editingItem)
      ensures isEditModalOpen == old(isEditModalOpen)
    {
      isModalOpen := false;
    }

    /** Closing the edit dialog forgets the item being edited. */
    method CloseEdit()
      modifies this
      ensures !isEditModalOpen && editingItem == None
      ensures menuItems == old(menuItems) && menuCategories == old(menuCategories)
      ensures activeCategory == old(activeCategory) && newItem == old(newItem) && isModalOpen == old(isModalOpen)
    {
      isEditModalOpen := false;
      editingItem := None;
    }

    /** The category fetch's list. */
    method CategoriesFetched(cats: seq<MenuCategory>)
      modifies this
      ensures menuCategories == cats && menuItems == old(menuItems)
      ensures activeCategory == old(activeCategory) && newItem == old(newItem) && editingItem == old(editingItem)
      ensures isModalOpen == old(isModalOpen) && isEditModalOpen == old(isEditModalOpen)
    {
      menuCategories := cats;
    }

    /** Clicking a category tab. */
    method SelectTab(tab: string)
      modifies this
      ensures activeCategory == tab
      ensures menuItems == old(menuItems) && menuCategories == old(menuCategories)
      ensures newItem == old(newItem) && editingItem == old(editingItem)
      ensures isModalOpen == old(isModalOpen) && isEditModalOpen == old(isEditModalOpen)
    {
      activeCategory := tab;
    }

    /** The list shown under the active tab. On the "all" tab the sort runs on `menuItems`
      * itself, so the state list is left sorted; other tabs sort a filtered copy. */
    method VisibleItems() returns (r: seq<MenuItem>)
      modifies this
      ensures r == FilteredItems(old(menuItems), activeCategory)
      ensures menuItems == if activeCategory == "all" then r else old(menuItems)
      ensures multiset(menuItems) == multiset(old(menuItems))
      ensures activeCategory == old(activeCategory) && menuCategories == old(menuCategories)
      ensures newItem == old(newItem) && editingItem == old(editingItem)
      ensures isModalOpen == old(isModalOpen) && isEditModalOpen == old(isEditModalOpen)
    {
      r := FilteredItems(menuItems, activeCategory);
      if activeCategory == "all" {
        menuItems := r;
      }
    }

    /** `handleAddItem`, with the server's reply to the POST given as `reply` (looked at only
      * when the checks pass). On success the resolved item is appended and the form reset. */
    method AddItem(reply: Reply<MenuItem>) returns (form: Option<ItemForm>, notice: Notice)
      modifies this
      ensures AddItemError(old(newItem)).Some? ==>
                && form == None && notice == Error(AddItemError(old(newItem)).value)
                && menuItems == old(menuItems) && newItem == old(newItem) && isModalOpen == old(isModalOpen)
      ensures AddItemError(old(newItem)).None? ==> form == Some(FormOf(old(newItem)))
      ensures AddItemError(old(newItem)).None? && reply.Failed? ==>
                && notice == Error(if reply.message != [] then reply.message else "Failed to add item")
                && menuItems == old(menuItems) && newItem == old(newItem) && isModalOpen == old(isModalOpen)
      ensures AddItemError(old(newItem)).None? && reply.Ok? ==>
                && notice == Success("Item added successfully")
                && menuItems == old(menuItems) + [ResolveCategory(menuCategories, reply.body)]
                && newItem == BlankItem && !isModalOpen
      ensures menuCategories == old(menuCategories) && activeCategory == old(activeCategory)
      ensures editingItem == old(editingItem) && isEditModalOpen == old(isEditModalOpen)
    {
      var err := AddItemError(newItem);
      if err.Some? {
        return None, Error(err.value);
      }
      form := Some(FormOf(newItem));
      match reply
      case Failed(msg) =>
        notice := Error(if msg != [] then msg else "Failed to add item");
      case Ok(added) =>
        menuItems := menuItems + [ResolveCategory(menuCategories, added)];
        isModalOpen := false;
        newItem := BlankItem;
        notice := Success("Item added successfully");
    }

    /** The delete confirmation's OK handler; `confirmed` is whether the user pressed OK and
      * `responseOk` whether the DELETE succeeded. */
    method DeleteItem(item: MenuItem, confirmed: bool, responseOk: bool) returns (notice: Option<Notice>)
      modifies this
      ensures menuItems == if confirmed && responseOk then IdLists.RemoveById(old(menuItems), ItemId, item.id)
                           else old(menuItems)
      ensures notice == if !confirmed then None
                        else if responseOk then Some(Success("Item deleted successfully"))
                        else Some(Error("Failed to delete item"))
      ensures menuCategories == old(menuCategories) && activeCategory == old(activeCategory)
      ensures newItem == old(newItem) && editingItem == old(editingItem)
      ensures isModalOpen == old(isModalOpen) && isEditModalOpen == old(isEditModalOpen)
    {
      if !confirmed {
        return None;
      }
      if !responseOk {
        return Some(Error("Failed to delete item"));
      }
      menuItems := IdLists.RemoveById(menuItems, ItemId, item.id);
      notice := Some(Success("Item deleted successfully"));
    }

    /** `handleEditItem`: an empty id is refused; otherwise every item with that id is replaced
      * by the server's item with its category resolved, and the edit dialog closes. */
    method EditItem(updated: MenuItem, reply: Reply<MenuItem>) returns (form: Option<ItemForm>, notice: Notice)
      modifies this
      ensures updated.id == [] ==> form == None && notice == Error(InvalidIdMessage) && menuItems == old(menuItems)
                                   && editingItem == old(editingItem) && isEditModalOpen == old(isEditModalOpen)
      ensures updated.id != [] ==> form == Some(FormOf(updated))
      ensures updated.id != [] && reply.Failed? ==>
                && notice == Error(if reply.message != [] then reply.message else "Failed to update item")
                && menuItems == old(menuItems) && editingItem == old(editingItem)
                && isEditModalOpen == old(isEditModalOpen)
      ensures updated.id != [] && reply.Ok? ==>
                && notice == Success("Item updated successfully")
                && menuItems == IdLists.ReplaceById(old(menuItems), ItemId, updated.id,
                                                    ResolveCategory(menuCategories, reply.body))
                && editingItem == None && !isEditModalOpen
      ensures menuCategories == old(menuCategories) && activeCategory == old(activeCategory)
      ensures newItem == old(newItem) && isModalOpen == old(isModalOpen)
    {
      var itemId := updated.id;
      if itemId == [] {
        return None, Error(InvalidIdMessage);
      }
      form := Some(FormOf(updated));
      match reply
      case Failed(msg) =>
        notice := Error(if msg != [] then msg else "Failed to update item");
      case Ok(data) =>
        menuItems := IdLists.ReplaceById(menuItems, ItemId, itemId, ResolveCategory(menuCategories, data));
        isEditModalOpen := false;
        editingItem := None;
        notice := Success("Item updated successfully");
    }

    /** `handleEditClick`. */
    method EditClick(item: MenuItem)
      modifies this
      ensures editingItem == Some(NormalizeCategory(item)) && isEditModalOpen
      ensures menuItems == old(menuItems) && menuCategories == old(menuCategories)
      ensures activeCategory == old(activeCategory) && newItem == old(newItem) && isModalOpen == old(isModalOpen)
    {
      editingItem := Some(NormalizeCategory(item));
      isEditModalOpen := true;
    }

    /** `handleImageUpload`: a refused file leaves both forms alone; an accepted one becomes the
      * image of the item being edited if there is one, else of the new item. The preview URL
      * (from `URL.createObjectURL`) is given as `objectUrl`. */
    method ImageUpload(file: FileInfo, objectUrl: string) returns (url: Option<string>, notice: Option<Notice>)
      modifies this
      ensures ImageUploadError(file).Some? ==>
                && url == None && notice == Some(Error(ImageUploadError(file).value))
                && newItem == old(newItem) && editingItem == old(editingItem)
      ensures ImageUploadError(file).None? ==>
                && url == Some(objectUrl) && notice == None
                && (old(editingItem).Some? ==>
                      editingItem == Some(old(editingItem).value.(image := ImageFile(file))) && newItem == old(newItem))
                && (old(editingItem).None? ==>
                      newItem == old(newItem).(image := ImageFile(file)) && editingItem == None)
      ensures menuItems == old(menuItems) && menuCategories == old(menuCategories)
      ensures activeCategory == old(activeCategory)
      ensures isModalOpen == old(isModalOpen) && isEditModalOpen == old(isEditModalOpen)
    {
      var err := ImageUploadError(file);
      if err.Some? {
        return None, Some(Error(err.value));
      }
      if editingItem.Some? {
        editingItem := Some(editingItem.value.(image := ImageFile(file)));
      } else {
        newItem := newItem.(image := ImageFile(file));
      }
      return Some(objectUrl), None;
    }
  }

  /** An added item shows under the tab of the category id the server returned it with,
    * whether or not that id resolved to a listed category. */
  lemma AddedItemShowsUnderItsTab(items: seq<MenuItem>, cats: seq<MenuCategory>, returned: MenuItem, active: string)
    ensures var added := ResolveCategory(cats, returned);
            added in FilteredItems(items + [added], active) <==> active == "all" || ItemCategoryId(returned) == active
  {
    var added := ResolveCategory(cats, returned);
    assert added in items + [added];
  }

}
