/**
 * Client code that uses the store and the registries only through their
 * contracts: what a caller can rely on across several calls.
 */
module Scenarios {
  import opened Wrappers
  import opened Models
  import opened Storage
  import opened TaskRegistry
  import opened CategoryRegistry

  /** A read right after a write returns the written value without touching the medium. */
  method SetThenGet(store: StorageService, key: string, v: Stored) returns (r: Option<Stored>)
    requires store.Valid()
    modifies store
    ensures store.Valid()
    ensures r == Some(v)
    ensures store.mediumReads == old(store.mediumReads)
  {
    store.Set(key, v);
    r := store.Get(key);
  }

  /** Two reads of one key agree and read the medium at most once between them. */
  method GetTwice(store: StorageService, key: string) returns (first: Option<Stored>, second: Option<Stored>)
    requires store.Valid()
    modifies store
    ensures store.Valid() && store.createCalls == 1
    ensures first == second == old(store.Peek(key))
    ensures |store.mediumReads| <= |old(store.mediumReads)| + 1
    ensures key in old(store.cache) ==> store.mediumReads == old(store.mediumReads)
  {
    first := store.Get(key);
    second := store.Get(key);
  }

  /** What was written is found again by a fresh store over the same medium (the next app start). */
  method ReadAfterRestart(store: StorageService, key: string, v: Stored) returns (r: Option<Stored>)
    requires store.Valid()
    modifies store
    ensures r == Some(v)
  {
    store.Set(key, v);
    var reopened := new StorageService(store.medium);
    r := reopened.Get(key);
  }

  /**
   * Starting from empty storage: add a category, add a task in it, delete the
   * category, which then no longer exists. Before the cascade the task still
   * refers to it; after it the task is uncategorised.
   */
  method DeleteWithLateCascade(name: string, title: string, t1: int, t2: int, t3: int)
    returns (remaining: seq<Category>, beforeCascade: Task, afterCascade: Task)
    ensures !HasCategoryId(remaining, t1)
    ensures beforeCascade.categoryId == NormalizeCategoryId(Some(t1))
    ensures afterCascade.categoryId.None?
    ensures afterCascade.id == t2 && afterCascade.created == t3
  {
    var store := new StorageService(map[]);
    var categories := new CategoryService(store);
    var tasks := new TaskService(store);
    categories.LoadCategories();
    tasks.LoadTasks();
    categories.AddCategory(name, t1);
    tasks.AddTask(title, Some(t1), t2, t3);
    categories.DeleteCategory(t1);
    remaining := categories.categories;
    assert tasks.tasks == [NewTask(title, Some(t1), t2, t3)];
    beforeCascade := tasks.tasks[0];
    tasks.HandleCategoryDeletion(t1);
    afterCascade := tasks.tasks[0];
    assert store.initialized && store.createCalls == 1;
  }
}
