/**
 * Deleting a category from the categories page: the category registry drops
 * it, then the task registry uncategorises its tasks. Together the two calls
 * keep every task's category reference pointing at an existing category.
 */
module CategoriesPage {
  import opened Wrappers
  import opened Models
  import opened Storage
  import opened TaskRegistry
  import opened CategoryRegistry
  import opened Home

  /** Every categorised task refers to a category in `categories`. */
  ghost predicate NoDanglingReferences(tasks: seq<Task>, categories: seq<Category>)
  {
    forall i :: 0 <= i < |tasks| && tasks[i].categoryId.Some? ==> HasCategoryId(categories, tasks[i].categoryId.value)
  }

  /** Deleting a category and then cascading keeps references intact. */
  lemma DeleteThenCascadeKeepsReferences(tasks: seq<Task>, categories: seq<Category>, id: int)
    requires NoDanglingReferences(tasks, categories)
    ensures NoDanglingReferences(ClearCategory(tasks, id), RemoveCategory(categories, id))
  {
  }

  /** Deleting a category that some task refers to, without the cascade, leaves a dangling reference. */
  lemma DeleteWithoutCascadeDangles(tasks: seq<Task>, categories: seq<Category>, id: int, k: nat)
    requires k < |tasks| && tasks[k].categoryId == Some(id)
    ensures !NoDanglingReferences(tasks, RemoveCategory(categories, id))
  {
  }

  /** After the cascade, selecting the deleted category would show no task. */
  lemma CascadeEmptiesFilter(tasks: seq<Task>, id: int)
    requires id != 0
    ensures FilterByCategory(ClearCategory(tasks, id), id) == []
  {
  }

  /** The confirm handler of the delete dialog: delete the category, then cascade to its tasks. */
  method DeleteCategory(categoryService: CategoryService, taskService: TaskService, category: Category)
    requires categoryService.Valid() && taskService.Valid()
    requires categoryService.storage == taskService.storage
    modifies categoryService, taskService, taskService.storage
    ensures taskService.Valid()
    ensures categoryService.categories == RemoveCategory(old(categoryService.categories), category.id)
    ensures taskService.tasks == ClearCategory(old(taskService.tasks), category.id)
    ensures taskService.storage.medium ==
      old(taskService.storage.medium)[CategoriesKey := CategoryList(categoryService.categories)][TasksKey := TaskList(taskService.tasks)]
    ensures taskService.storage.cache ==
      old(taskService.storage.cache)[CategoriesKey := Some(CategoryList(categoryService.categories))][TasksKey := Some(TaskList(taskService.tasks))]
    ensures taskService.storage.mediumReads == old(taskService.storage.mediumReads)
    ensures taskService.storage.initialized
    ensures NoDanglingReferences(old(taskService.tasks), old(categoryService.categories)) ==>
      NoDanglingReferences(taskService.tasks, categoryService.categories)
  {
    categoryService.DeleteCategory(category.id);
    taskService.HandleCategoryDeletion(category.id);
    if NoDanglingReferences(old(taskService.tasks), old(categoryService.categories)) {
      DeleteThenCascadeKeepsReferences(old(taskService.tasks), old(categoryService.categories), category.id);
    }
  }
}
