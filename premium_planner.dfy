/** The task manager of frontend/src/components/PremiumPlanner.js: a list of
    tasks that the form prepends to, toggled and deleted by id, viewed through
    filters, with completion statistics. Saving to local storage is not
    modelled. */
module PremiumPlanner {
  import opened Text
  import opened Wrappers
  import opened Seqs
  import opened Percent

  datatype Task = Task(
    id: int, text: string, priority: string, category: string, dueDate: string,
    estimatedTime: string, completed: bool, createdAt: string, timeSpent: int)

  /** The fields of the new-task form. */
  datatype TaskForm = TaskForm(text: string, priority: string, category: string, dueDate: string, estimatedTime: string)

  /** The form as it starts and as `addTask` leaves it. */
  const BlankForm := TaskForm("", "medium", "personal", "", "")

  /** The task `addTask` builds from the form: the form's fields, not done,
      no time spent; `id` and `createdAt` come from the clock. */
  function NewTask(form: TaskForm, id: int, createdAt: string): (t: Task)
    ensures !t.completed && t.timeSpent == 0 && t.id == id
    ensures t.text == form.text && t.priority == form.priority && t.category == form.category
    ensures t.dueDate == form.dueDate && t.estimatedTime == form.estimatedTime
  {
    Task(id, form.text, form.priority, form.category, form.dueDate, form.estimatedTime, false, createdAt, 0)
  }

  /** `tasks.map(...)` of `toggleTask`: the tasks carrying `id` change state,
      the others stay as they are. */
  function Toggled(tasks: seq<Task>, id: int): (r: seq<Task>)
    ensures |r| == |tasks|
    ensures forall i :: 0 <= i < |tasks| ==>
              r[i] == tasks[i].(completed := if tasks[i].id == id then !tasks[i].completed else tasks[i].completed)
  {
    if tasks == [] then []
    else
      var t := tasks[0];
      [if t.id == id then t.(completed := !t.completed) else t] + Toggled(tasks[1..], id)
  }

  /** Toggling the same id twice gives the list back. */
  lemma ToggleTwice(tasks: seq<Task>, id: int)
    ensures Toggled(Toggled(tasks, id), id) == tasks
  {
  }

  /** Toggling an id no task carries changes nothing. */
  lemma ToggleAbsent(tasks: seq<Task>, id: int)
    requires forall i :: 0 <= i < |tasks| ==> tasks[i].id != id
    ensures Toggled(tasks, id) == tasks
  {
  }

  /** The test of `deleteTask`'s filter: the task does not carry `id`. */
  function OtherThan(id: int): Task -> bool
  {
    (t: Task) => t.id != id
  }

  /** `tasks.filter(task => task.id !== taskId)` of `deleteTask`. */
  function Without(tasks: seq<Task>, id: int): seq<Task>
  {
    Filter(tasks, OtherThan(id))
  }

  /** Deleting removes exactly the tasks with the id: no task with it is left,
      every other task stays, and the rest keep their order. */
  lemma DeleteRemovesExactly(tasks: seq<Task>, id: int, a: seq<Task>, b: seq<Task>)
    ensures forall i :: 0 <= i < |Without(tasks, id)| ==> Without(tasks, id)[i].id != id
    ensures forall i :: 0 <= i < |tasks| && tasks[i].id != id ==> tasks[i] in Without(tasks, id)
    ensures Without(a + b, id) == Without(a, id) + Without(b, id)
    ensures (forall i :: 0 <= i < |tasks| ==> tasks[i].id != id) ==> Without(tasks, id) == tasks
  {
    FilterConcat(a, b, OtherThan(id));
    if forall i :: 0 <= i < |tasks| ==> tasks[i].id != id {
      FilterKeepsAll(tasks, OtherThan(id));
    }
  }

  predicate IsDone(t: Task)
  {
    t.completed
  }

  predicate IsOpen(t: Task)
  {
    !t.completed
  }

  /** High priority and still to do. */
  predicate IsUrgent(t: Task)
  {
    t.priority == "high" && !t.completed
  }

  function Completed(tasks: seq<Task>): seq<Task>
  {
    Filter(tasks, IsDone)
  }

  function Pending(tasks: seq<Task>): seq<Task>
  {
    Filter(tasks, IsOpen)
  }

  /** The 'high' view. */
  function Urgent(tasks: seq<Task>): seq<Task>
  {
    Filter(tasks, IsUrgent)
  }

  /** A task with a due date that falls today; `isToday` stands for the
      comparison of `toDateString()` values. */
  function DueToday(isToday: string -> bool): Task -> bool
  {
    (t: Task) => t.dueDate != "" && isToday(t.dueDate)
  }

  /** `getFilteredTasks`: each named view keeps exactly the tasks that meet
      its test, and any other filter shows the whole list. */
  function FilteredTasks(tasks: seq<Task>, filter: string, isToday: string -> bool): (r: seq<Task>)
    ensures forall i :: 0 <= i < |r| ==> r[i] in tasks
    ensures filter == "completed" ==>
              (forall i :: 0 <= i < |r| ==> r[i].completed) &&
              (forall i :: 0 <= i < |tasks| && tasks[i].completed ==> tasks[i] in r)
    ensures filter == "pending" ==>
              (forall i :: 0 <= i < |r| ==> !r[i].completed) &&
              (forall i :: 0 <= i < |tasks| && !tasks[i].completed ==> tasks[i] in r)
    ensures filter == "high" ==>
              (forall i :: 0 <= i < |r| ==> r[i].priority == "high" && !r[i].completed) &&
              (forall i :: 0 <= i < |tasks| && tasks[i].priority == "high" && !tasks[i].completed ==> tasks[i] in r)
    ensures filter == "today" ==>
              (forall i :: 0 <= i < |r| ==> r[i].dueDate != "" && isToday(r[i].dueDate)) &&
              (forall i :: 0 <= i < |tasks| && tasks[i].dueDate != "" && isToday(tasks[i].dueDate) ==> tasks[i] in r)
    ensures filter !in {"completed", "pending", "high", "today"} ==> r == tasks
  {
    if filter == "completed" then Completed(tasks)
    else if filter == "pending" then Pending(tasks)
    else if filter == "high" then Urgent(tasks)
    else if filter == "today" then Filter(tasks, DueToday(isToday))
    else tasks
  }

  /** The 'completed' and 'pending' views split the list between them: each
      task lands in exactly one, so pending = total - completed. */
  lemma CompletedPendingPartition(tasks: seq<Task>, isToday: string -> bool)
    ensures |FilteredTasks(tasks, "completed", isToday)| + |FilteredTasks(tasks, "pending", isToday)| == |tasks|
    ensures multiset(FilteredTasks(tasks, "completed", isToday)) + multiset(FilteredTasks(tasks, "pending", isToday)) == multiset(tasks)
    ensures forall i :: 0 <= i < |FilteredTasks(tasks, "high", isToday)| ==>
              FilteredTasks(tasks, "high", isToday)[i].priority == "high" &&
              !FilteredTasks(tasks, "high", isToday)[i].completed
  {
    FilterPartition(tasks, IsDone, IsOpen);
  }

  /** `completionRate`: the rounded share of done tasks, 0 for an empty list. */
  function CompletionRate(tasks: seq<Task>): (r: nat)
    ensures 0 <= r <= 100
    ensures tasks == [] ==> r == 0
    ensures tasks != [] && |Completed(tasks)| == |tasks| ==> r == 100
    ensures |Completed(tasks)| == 0 ==> r == 0
  {
    PercentInRange(|Completed(tasks)|, |tasks|);
    RoundedPercent(|Completed(tasks)|, |tasks|)
  }

  /** The counters of the statistics cards. */
  function HighPriorityCount(tasks: seq<Task>): nat
  {
    |Urgent(tasks)|
  }

  function PendingCount(tasks: seq<Task>): int
  {
    |tasks| - |Completed(tasks)|
  }

  function TodayCount(tasks: seq<Task>, isToday: string -> bool): nat
  {
    |Filter(tasks, DueToday(isToday))|
  }

  /** The 'Urgent' counter equals the size of the 'high' view, the 'Pending'
      counter the size of the 'pending' view and the 'Today' counter the
      size of the 'today' view. */
  lemma CountersMatchViews(tasks: seq<Task>, isToday: string -> bool)
    ensures HighPriorityCount(tasks) == |FilteredTasks(tasks, "high", isToday)|
    ensures PendingCount(tasks) == |FilteredTasks(tasks, "pending", isToday)|
    ensures TodayCount(tasks, isToday) == |FilteredTasks(tasks, "today", isToday)|
  {
    FilterPartition(tasks, IsDone, IsOpen);
  }

  /** The Bootstrap colour of a priority; other strings have none. */
  const PriorityColors: map<string, string> := map["high" := "danger", "medium" := "warning", "low" := "info"]

  function PriorityColor(priority: string): (r: Option<string>)
    ensures r.Some? <==> priority in {"high", "medium", "low"}
    ensures priority == "high" ==> r == Some("danger")
    ensures priority == "medium" ==> r == Some("warning")
    ensures priority == "low" ==> r == Some("info")
  {
    if priority in PriorityColors then Some(PriorityColors[priority]) else None
  }

  /** The icon of a category; other strings have none. */
  const CategoryIcons: map<string, string> := map[
    "personal" := "👤", "work" := "💼", "health" := "🏥", "learning" := "📚",
    "social" := "👥", "finance" := "💰", "creative" := "🎨"]

  function CategoryIcon(category: string): (r: Option<string>)
    ensures r.Some? <==> category in {"personal", "work", "health", "learning", "social", "finance", "creative"}
  {
    if category in CategoryIcons then Some(CategoryIcons[category]) else None
  }

  /** Different priorities are told apart by colour. */
  lemma PriorityColorsDistinct(p: string, q: string)
    requires PriorityColor(p).Some? && PriorityColor(q).Some? && p != q
    ensures PriorityColor(p) != PriorityColor(q)
  {
  }

  /** The state of the `PremiumPlanner` component. */
  class PremiumPlanner {
    var tasks: seq<Task>
    var newTask: TaskForm
    var filter: string
    var showTaskModal: bool

    constructor ()
      ensures tasks == [] && newTask == BlankForm && filter == "all" && !showTaskModal
    {
      tasks := [];
      newTask := BlankForm;
      filter := "all";
      showTaskModal := false;
    }

    /** `addTask`: a form whose text is blank after trimming is ignored;
        otherwise the new task goes first, the form is reset and the dialog
        closes. */
    method AddTask(id: int, createdAt: string)
      modifies this
      ensures IsBlank(old(newTask.text)) ==>
                tasks == old(tasks) && newTask == old(newTask) && showTaskModal == old(showTaskModal)
      ensures !IsBlank(old(newTask.text)) ==>
                tasks == [NewTask(old(newTask), id, createdAt)] + old(tasks) &&
                newTask == BlankForm && !showTaskModal
      ensures filter == old(filter)
    {
      if IsBlank(newTask.text) {
        return;
      }
      tasks := [NewTask(newTask, id, createdAt)] + tasks;
      newTask := BlankForm;
      showTaskModal := false;
    }

    method ToggleTask(id: int)
      modifies this
      ensures tasks == Toggled(old(tasks), id)
      ensures newTask == old(newTask) && filter == old(filter) && showTaskModal == old(showTaskModal)
    {
      tasks := Toggled(tasks, id);
    }

    method DeleteTask(id: int)
      modifies this
      ensures tasks == Without(old(tasks), id)
      ensures newTask == old(newTask) && filter == old(filter) && showTaskModal == old(showTaskModal)
    {
      tasks := Without(tasks, id);
    }
  }
}
