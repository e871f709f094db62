/**
 * The view logic of the home page: which category is selected, which tasks
 * are shown for it, how a category id is displayed, and the task copies the
 * page hands to the task registry.
 */
module Home {
  import opened Wrappers
  import opened Text
  import opened Sequences
  import opened Models
  import opened TaskRegistry
  import opened CategoryRegistry

  /** The label shown for a task without a (named) category. */
  const NoCategoryLabel := "Sin categor\U{00ED}a"

  /**
   * How the category dialog was closed: cancelled (any role but confirm), or
   * confirmed with the value of the chosen radio button, if any.
   */
  datatype DialogOutcome = Cancelled | Confirmed(values: Option<int>)

  // ---------------------------------------------------------------------------
  // Pure view functions
  // ---------------------------------------------------------------------------

  /**
   * The tasks shown for a selected category: all of them for 0, otherwise
   * exactly those in that category, in snapshot order.
   */
  function FilterByCategory(tasks: seq<Task>, categoryId: int): (r: seq<Task>)
    ensures categoryId == 0 ==> r == tasks
    ensures categoryId != 0 ==> IsSubsequence(r, tasks)
    ensures categoryId != 0 ==> forall t :: t in r ==> t.categoryId == Some(categoryId)
    ensures categoryId != 0 ==>
      forall t :: t in tasks && t.categoryId == Some(categoryId) ==> multiset(r)[t] == multiset(tasks)[t]
  {
    if categoryId != 0 then Filter((t: Task) => t.categoryId == Some(categoryId), tasks)
    else tasks
  }

  /** The selection a new snapshot leaves: kept while its category exists, otherwise 0. */
  function SurvivingSelection(selected: int, categories: seq<Category>): (r: int)
    ensures r == selected || r == 0
    ensures r != 0 ==> HasCategoryId(categories, r)
    ensures HasCategoryId(categories, selected) ==> r == selected
  {
    if HasCategoryId(categories, selected) then selected else 0
  }

  /** `task` with `completed` negated and every other field kept. */
  function Toggled(t: Task): (r: Task)
    ensures r.completed == !t.completed
    ensures r.(completed := t.completed) == t
  {
    t.(completed := !t.completed)
  }

  /** `task` moved to the category chosen in the dialog, 0 meaning none. */
  function Recategorized(t: Task, chosen: int): (r: Task)
    ensures r.categoryId == NormalizeCategoryId(Some(chosen))
    ensures r.categoryId.None? <==> chosen == 0
    ensures r.(categoryId := t.categoryId) == t
  {
    t.(categoryId := if chosen == 0 then None else Some(chosen))
  }

  /** `task` with the title typed in the edit dialog, untrimmed. */
  function Retitled(t: Task, title: string): (r: Task)
    ensures r.title == title
    ensures r.(title := t.title) == t
  {
    t.(title := title)
  }

  /** The selection after tapping the chip of `categoryId`: tapping the selected one clears it. */
  function ToggledSelection(current: int, categoryId: int): (r: int)
    ensures r == 0 || r == categoryId
    ensures r == categoryId <==> categoryId != current || categoryId == 0
  {
    if categoryId == current then 0 else categoryId
  }

  /**
   * Tapping the same chip twice leaves its category selected when it was
   * selected before, and no category selected otherwise.
   */
  lemma ToggleTwice(current: int, categoryId: int)
    ensures ToggledSelection(ToggledSelection(current, categoryId), categoryId) ==
      if categoryId == current then categoryId else 0
  {
  }

  // ---------------------------------------------------------------------------
  // The page
  // ---------------------------------------------------------------------------

  class HomePage {
    const taskService: TaskService

    var tasks: seq<Task>
    var filteredTasks: seq<Task>
    var categories: seq<Category>
    var selectedCategoryId: int
    var newTaskTitle: string
    var isLoading: bool

    ghost predicate Valid()
      reads this, taskService, taskService.storage
    {
      taskService.Valid()
    }

    constructor (taskService: TaskService)
      requires taskService.Valid()
      ensures Valid() && this.taskService == taskService
      ensures tasks == [] && filteredTasks == [] && categories == []
      ensures selectedCategoryId == 0 && newTaskTitle == "" && isLoading
    {
      this.taskService := taskService;
      tasks, filteredTasks, categories := [], [], [];
      selectedCategoryId := 0;
      newTaskTitle := "";
      isLoading := true;
    }

    /**
     * Takes in a new pair of snapshots: drops a selection whose category is
     * gone and recomputes the shown tasks.
     */
    method OnSnapshot(tasks: seq<Task>, categories: seq<Category>)
      modifies this`tasks, this`categories, this`isLoading, this`selectedCategoryId, this`filteredTasks
      ensures this.tasks == tasks && this.categories == categories && !isLoading
      ensures selectedCategoryId == SurvivingSelection(old(selectedCategoryId), categories)
      ensures filteredTasks == FilterByCategory(tasks, selectedCategoryId)
    {
      this.tasks := tasks;
      this.categories := categories;
      isLoading := false;
      if !HasCategoryId(this.categories, selectedCategoryId) {
        selectedCategoryId := 0;
      }
      FilterTasks(selectedCategoryId);
    }

    /** The name of the first category with id `categoryId`, or the fallback label when there is none or it is empty. */
    function GetCategoryName(categoryId: Option<int>): (r: string)
      reads this
      ensures categoryId.None? ==> r == NoCategoryLabel
      ensures categoryId.Some? && !HasCategoryId(categories, categoryId.value) ==> r == NoCategoryLabel
      ensures categoryId.Some? && FindCategoryIndex(categories, categoryId.value).Some? ==>
        var name := categories[FindCategoryIndex(categories, categoryId.value).value].name;
        r == if name == "" then NoCategoryLabel else name
    {
      match categoryId
      case None => NoCategoryLabel
      case Some(id) =>
        match FindCategoryIndex(categories, id)
        case None => NoCategoryLabel
        case Some(i) => if categories[i].name == "" then NoCategoryLabel else categories[i].name
    }

    /** What the category dialog yields: 0 without categories, otherwise the confirmed choice (0 when none), or `None` when cancelled. */
    function PromptCategorySelection(outcome: DialogOutcome): (r: Option<int>)
      reads this
      ensures |categories| == 0 ==> r == Some(0)
      ensures |categories| != 0 && outcome.Cancelled? ==> r.None?
      ensures |categories| != 0 && outcome.Confirmed? ==> r == Some(outcome.values.GetOr(0))
    {
      if |categories| == 0 then Some(0)
      else match outcome
        case Cancelled => None
        case Confirmed(values) => Some(values.GetOr(0))
    }

    /** The category a new task goes into: the selected one, or else the dialog's choice. */
    function CategoryForNewTask(outcome: DialogOutcome): (r: Option<int>)
      reads this
      ensures selectedCategoryId != 0 ==> r == Some(selectedCategoryId)
      ensures selectedCategoryId == 0 && |categories| == 0 ==> r == Some(0)
      ensures selectedCategoryId == 0 ==> r == PromptCategorySelection(outcome)
    {
      if selectedCategoryId != 0 then Some(selectedCategoryId) else PromptCategorySelection(outcome)
    }

    /**
     * Adds the typed task unless its title is blank or the category dialog is
     * cancelled; the input is cleared after adding.
     */
    method AddTask(outcome: DialogOutcome, now: int, createdAt: int)
      requires Valid()
      modifies this`newTaskTitle, taskService, taskService.storage
      ensures Valid()
      ensures Trim(old(newTaskTitle)) == "" || old(CategoryForNewTask(outcome)).None? ==>
        unchanged(taskService) && unchanged(taskService.storage) && newTaskTitle == old(newTaskTitle)
      ensures Trim(old(newTaskTitle)) != "" && old(CategoryForNewTask(outcome)).Some? ==>
        && taskService.tasks == [NewTask(old(newTaskTitle), old(CategoryForNewTask(outcome)), now, createdAt)] + old(taskService.tasks)
        && taskService.storage.Wrote(old(taskService.storage.cache), old(taskService.storage.medium), TasksKey, Storage.TaskList(taskService.tasks))
        && taskService.storage.mediumReads == old(taskService.storage.mediumReads)
        && taskService.storage.initialized
        && newTaskTitle == ""
    {
      if Trim(newTaskTitle) == "" {
        return;
      }
      var chosen := CategoryForNewTask(outcome);
      if chosen.None? {
        return;
      }
      taskService.AddTask(newTaskTitle, chosen, now, createdAt);
      newTaskTitle := "";
    }

    /** Saves the title typed in the edit dialog, unless it is blank. */
    method EditTask(task: Task, title: string)
      requires Valid()
      modifies taskService, taskService.storage
      ensures Valid()
      ensures Trim(title) == "" ==> unchanged(taskService) && unchanged(taskService.storage)
      ensures Trim(title) != "" ==> taskService.tasks == ReplaceTask(old(taskService.tasks), Retitled(task, title))
      ensures Trim(title) != "" && HasTaskId(old(taskService.tasks), task.id) ==>
        && taskService.storage.Wrote(old(taskService.storage.cache), old(taskService.storage.medium), TasksKey, Storage.TaskList(taskService.tasks))
        && taskService.storage.mediumReads == old(taskService.storage.mediumReads)
        && taskService.storage.initialized
      ensures !HasTaskId(old(taskService.tasks), task.id) ==> unchanged(taskService) && unchanged(taskService.storage)
    {
      if Trim(title) != "" {
        taskService.UpdateTask(Retitled(task, title));
      }
    }

    /** Moves `task` to the category chosen in the dialog, unless it is cancelled. */
    method ChangeCategory(task: Task, outcome: DialogOutcome)
      requires Valid()
      modifies taskService, taskService.storage
      ensures Valid()
      ensures PromptCategorySelection(outcome).None? ==> unchanged(taskService) && unchanged(taskService.storage)
      ensures PromptCategorySelection(outcome).Some? ==>
        taskService.tasks == ReplaceTask(old(taskService.tasks), Recategorized(task, PromptCategorySelection(outcome).value))
      ensures PromptCategorySelection(outcome).Some? && HasTaskId(old(taskService.tasks), task.id) ==>
        && taskService.storage.Wrote(old(taskService.storage.cache), old(taskService.storage.medium), TasksKey, Storage.TaskList(taskService.tasks))
        && taskService.storage.mediumReads == old(taskService.storage.mediumReads)
        && taskService.storage.initialized
      ensures !HasTaskId(old(taskService.tasks), task.id) ==> unchanged(taskService) && unchanged(taskService.storage)
    {
      var chosen := PromptCategorySelection(outcome);
      if chosen.None? {
        return;
      }
      taskService.UpdateTask(Recategorized(task, chosen.value));
    }

    /** Flips the completed flag of `task`. */
    method ToggleTask(task: Task)
      requires Valid()
      modifies taskService, taskService.storage
      ensures Valid()
      ensures taskService.tasks == ReplaceTask(old(taskService.tasks), Toggled(task))
      ensures HasTaskId(old(taskService.tasks), task.id) ==>
        && taskService.storage.Wrote(old(taskService.storage.cache), old(taskService.storage.medium), TasksKey, Storage.TaskList(taskService.tasks))
        && taskService.storage.mediumReads == old(taskService.storage.mediumReads)
        && taskService.storage.initialized
      ensures !HasTaskId(old(taskService.tasks), task.id) ==> unchanged(taskService) && unchanged(taskService.storage)
    {
      taskService.UpdateTask(Toggled(task));
    }

    /** Deletes `task` by its id. */
    method DeleteTask(task: Task)
      requires Valid()
      modifies taskService, taskService.storage
      ensures Valid()
      ensures taskService.tasks == RemoveTask(old(taskService.tasks), task.id)
      ensures taskService.storage.Wrote(old(taskService.storage.cache), old(taskService.storage.medium), TasksKey, Storage.TaskList(taskService.tasks))
      ensures taskService.storage.mediumReads == old(taskService.storage.mediumReads)
      ensures taskService.storage.initialized
    {
      taskService.DeleteTask(task.id);
    }

    /** Tapping a category chip: toggles the selection and refilters. */
    method SelectCategory(categoryId: int)
      modifies this`selectedCategoryId, this`filteredTasks
      ensures selectedCategoryId == ToggledSelection(old(selectedCategoryId), categoryId)
      ensures filteredTasks == FilterByCategory(tasks, selectedCategoryId)
    {
      ToggleSelectedCategoryId(categoryId);
      FilterTasks(selectedCategoryId);
    }

    method FilterTasks(categoryId: int)
      modifies this`filteredTasks
      ensures filteredTasks == FilterByCategory(tasks, categoryId)
    {
      UpdateFilteredTasks(categoryId);
    }

    method ToggleSelectedCategoryId(categoryId: int)
      modifies this`selectedCategoryId
      ensures selectedCategoryId == ToggledSelection(old(selectedCategoryId), categoryId)
    {
      selectedCategoryId := if categoryId == selectedCategoryId then 0 else categoryId;
    }

    method UpdateFilteredTasks(categoryId: int)
      modifies this`filteredTasks
      ensures filteredTasks == FilterByCategory(tasks, categoryId)
    {
      if categoryId != 0 {
        filteredTasks := Filter((t: Task) => t.categoryId == Some(categoryId), tasks);
      } else {
        filteredTasks := tasks;
      }
    }
  }
}
