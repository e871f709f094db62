/**
 * The category registry: the published category snapshot, the pure functions
 * that build each new snapshot, and the service that persists every new
 * snapshot under the `categories` key before publishing it.
 */
module CategoryRegistry {
  import opened Wrappers
  import opened Text
  import opened Sequences
  import opened Models
  import opened Storage

  const CategoriesKey := "categories"

  // ---------------------------------------------------------------------------
  // Snapshot functions
  // ---------------------------------------------------------------------------

  /** The category `addCategory(name)` creates at time `now`. */
  function NewCategory(name: string, now: int): (c: Category)
    ensures c.id == now
    ensures c.name == Trim(name)
    ensures c.name == "" <==> AllWhitespace(name)
  {
    TrimEmptyIff(name);
    Category(now, Trim(name))
  }

  /** Whether some category in `s` has id `id`. */
  predicate HasCategoryId(s: seq<Category>, id: int)
  {
    exists i :: 0 <= i < |s| && s[i].id == id
  }

  /** `s.findIndex(c => c.id === id)`, with `None` for -1. */
  function FindCategoryIndex(s: seq<Category>, id: int): (r: Option<nat>)
    ensures r.None? <==> !HasCategoryId(s, id)
    ensures r.Some? ==> r.value < |s| && s[r.value].id == id
    ensures r.Some? ==> forall j :: 0 <= j < r.value ==> s[j].id != id
  {
    if s == [] then None
    else if s[0].id == id then Some(0)
    else
      match FindCategoryIndex(s[1..], id)
      case None => None
      case Some(i) => Some(i + 1)
  }

  /** The category as `updateCategory` stores it: the caller's category with its name trimmed. */
  function WithTrimmedName(c: Category): (r: Category)
    ensures r.id == c.id && r.name == Trim(c.name)
  {
    c.(name := Trim(c.name))
  }

  /**
   * The snapshot after `updateCategory(category)`: the first category with
   * `category.id` is replaced in place by `category` with a trimmed name;
   * without such a category the snapshot is unchanged.
   */
  function ReplaceCategory(s: seq<Category>, category: Category): (r: seq<Category>)
    ensures |r| == |s|
    ensures !HasCategoryId(s, category.id) ==> r == s
    ensures FindCategoryIndex(s, category.id).Some? ==>
      var i := FindCategoryIndex(s, category.id).value;
      r[i] == WithTrimmedName(category) && forall k :: 0 <= k < |s| && k != i ==> r[k] == s[k]
  {
    match FindCategoryIndex(s, category.id)
    case None => s
    case Some(i) => s[..i] + [WithTrimmedName(category)] + s[i + 1..]
  }

  /** The snapshot after `deleteCategory(id)`: every category with that id is dropped. */
  function RemoveCategory(s: seq<Category>, id: int): (r: seq<Category>)
    ensures !HasCategoryId(r, id)
    ensures IsSubsequence(r, s)
    ensures forall c :: c in s && c.id != id ==> multiset(r)[c] == multiset(s)[c]
    ensures !HasCategoryId(s, id) ==> r == s
  {
    var keep := (c: Category) => c.id != id;
    var r := Filter(keep, s);
    assert forall i :: 0 <= i < |r| ==> r[i] in r;
    assert !HasCategoryId(s, id) ==> r == s by {
      if !HasCategoryId(s, id) {
        FilterKeepsAll(keep, s);
      }
    }
    r
  }

  /** The ids that survive a deletion are exactly the other ids. */
  lemma RemoveCategoryIds(s: seq<Category>, id: int, other: int)
    requires other != id
    ensures HasCategoryId(RemoveCategory(s, id), other) <==> HasCategoryId(s, other)
  {
  }

  /** The category list a stored value stands for; no value (or a task list) stands for none. */
  function StoredCategories(v: Option<Stored>): (r: seq<Category>)
    ensures v.Some? && v.value.CategoryList? ==> r == v.value.categories
    ensures !(v.Some? && v.value.CategoryList?) ==> r == []
  {
    match v
    case Some(CategoryList(cs)) => cs
    case _ => []
  }

  // ---------------------------------------------------------------------------
  // The service
  // ---------------------------------------------------------------------------

  class CategoryService {
    const storage: StorageService
    /** The published snapshot (the subject's current value). */
    var categories: seq<Category>

    ghost predicate Valid()
      reads this, storage
    {
      storage.Valid()
    }

    /** A registry over `storage` whose subject starts out empty. */
    constructor (storage: StorageService)
      requires storage.Valid()
      ensures Valid() && this.storage == storage && categories == []
    {
      this.storage := storage;
      categories := [];
    }

    /** The current snapshot. */
    method GetCurrentCategories() returns (r: seq<Category>)
      ensures r == categories
    {
      r := categories;
    }

    /** Publishes the stored category list as it is, or none when storage holds null. */
    method LoadCategories()
      requires Valid()
      modifies this, storage
      ensures Valid()
      ensures storage.initialized
      ensures storage.ReadThrough(old(storage.cache), old(storage.medium), old(storage.mediumReads), CategoriesKey)
      ensures categories == StoredCategories(old(storage.Peek(CategoriesKey)))
    {
      var stored := storage.Get(CategoriesKey);
      categories := StoredCategories(stored);
    }

    /** Appends a new category created at `now`, persists the snapshot and publishes it. */
    method AddCategory(name: string, now: int)
      requires Valid()
      modifies this, storage
      ensures Valid()
      ensures categories == old(categories) + [NewCategory(name, now)]
      ensures storage.Wrote(old(storage.cache), old(storage.medium), CategoriesKey, CategoryList(categories))
      ensures storage.mediumReads == old(storage.mediumReads)
      ensures storage.initialized
    {
      var current := GetCurrentCategories();
      var updated := current + [NewCategory(name, now)];
      storage.Set(CategoriesKey, CategoryList(updated));
      categories := updated;
    }

    /**
     * Replaces the first category with `category.id` by `category` with a
     * trimmed name, persists and publishes; with no such category nothing
     * happens at all.
     */
    method UpdateCategory(category: Category)
      requires Valid()
      modifies this, storage
      ensures Valid()
      ensures categories == ReplaceCategory(old(categories), category)
      ensures HasCategoryId(old(categories), category.id) ==>
        storage.Wrote(old(storage.cache), old(storage.medium), CategoriesKey, CategoryList(categories))
        && storage.mediumReads == old(storage.mediumReads)
        && storage.initialized
      ensures !HasCategoryId(old(categories), category.id) ==> unchanged(this) && unchanged(storage)
    {
      var current := GetCurrentCategories();
      var index := FindCategoryIndex(current, category.id);
      if index.Some? {
        var updated := ReplaceCategory(current, category);
        storage.Set(CategoriesKey, CategoryList(updated));
        categories := updated;
      }
    }

    /** Drops every category with id `id`, then persists and publishes, even when none was dropped. */
    method DeleteCategory(id: int)
      requires Valid()
      modifies this, storage
      ensures Valid()
      ensures categories == RemoveCategory(old(categories), id)
      ensures storage.Wrote(old(storage.cache), old(storage.medium), CategoriesKey, CategoryList(categories))
      ensures storage.mediumReads == old(storage.mediumReads)
      ensures storage.initialized
    {
      var current := GetCurrentCategories();
      var updated := RemoveCategory(current, id);
      storage.Set(CategoriesKey, CategoryList(updated));
      categories := updated;
    }
  }
}
