/** The two entities the app stores: tasks and the categories they may refer to. */
module Models {
  import opened Wrappers

  /**
   * One to-do item. `created` is the creation time in milliseconds since the
   * epoch; `categoryId` is a weak reference to a `Category.id`, `None` for
   * "uncategorised".
   */
  datatype Task = Task(id: int, title: string, completed: bool, created: int, categoryId: Option<int>)

  /** A user-defined grouping label. */
  datatype Category = Category(id: int, name: string)
}
