/** The daily planner of frontend/src/components/EnhancedPlanner.js: the
    simpler sibling of the premium task manager, with its own task shape,
    form and icon table. Saving to local storage is not modelled. */
module EnhancedPlanner {
  import opened Text
  import opened Wrappers
  import opened Seqs
  import opened Percent
  import PremiumPlanner

  datatype Task = Task(id: int, text: string, priority: string, category: string, completed: bool, createdAt: string)

  datatype TaskForm = TaskForm(text: string, priority: string, category: string)

  const BlankForm := TaskForm("", "medium", "personal")

  function NewTask(form: TaskForm, id: int, createdAt: string): (t: Task)
    ensures !t.completed && t.id == id
    ensures t.text == form.text && t.priority == form.priority && t.category == form.category
  {
    Task(id, form.text, form.priority, form.category, false, createdAt)
  }

  /** `toggleTask`'s map: only the tasks carrying `id` change state. */
  function Toggled(tasks: seq<Task>, id: int): (r: seq<Task>)
    ensures |r| == |tasks|
    ensures forall i :: 0 <= i < |tasks| ==>
              r[i] == tasks[i].(completed := if tasks[i].id == id then !tasks[i].completed else tasks[i].completed)
  {
    if tasks == [] then []
    else
      var t := tasks[0];
      [if t.id == id then t.(completed := !t.completed) else t] + Toggled(tasks[1..], id)
  }

  lemma ToggleTwice(tasks: seq<Task>, id: int)
    ensures Toggled(Toggled(tasks, id), id) == tasks
  {
  }

  function OtherThan(id: int): Task -> bool
  {
    (t: Task) => t.id != id
  }

  /** `deleteTask`'s filter. */
  function Without(tasks: seq<Task>, id: int): seq<Task>
  {
    Filter(tasks, OtherThan(id))
  }

  /** Deleting removes exactly the tasks with the id and keeps the others in order. */
  lemma DeleteRemovesExactly(tasks: seq<Task>, id: int, a: seq<Task>, b: seq<Task>)
    ensures forall i :: 0 <= i < |Without(tasks, id)| ==> Without(tasks, id)[i].id != id
    ensures forall i :: 0 <= i < |tasks| && tasks[i].id != id ==> tasks[i] in Without(tasks, id)
    ensures Without(a + b, id) == Without(a, id) + Without(b, id)
    ensures (forall i :: 0 <= i < |tasks| ==> tasks[i].id != id) ==> Without(tasks, id) == tasks
  {
    FilterConcat(a, b, OtherThan(id));
    if forall i :: 0 <= i < |tasks| ==> tasks[i].id != id {
      FilterKeepsAll(tasks, OtherThan(id));
    }
  }

  predicate IsDone(t: Task)
  {
    t.completed
  }

  /** `completionRate`: 0 with no tasks, otherwise the rounded share of done
      tasks, within 0..100. */
  function CompletionRate(tasks: seq<Task>): (r: nat)
    ensures 0 <= r <= 100
    ensures tasks == [] ==> r == 0
    ensures tasks != [] && |Filter(tasks, IsDone)| == |tasks| ==> r == 100
  {
    PercentInRange(|Filter(tasks, IsDone)|, |tasks|);
    RoundedPercent(|Filter(tasks, IsDone)|, |tasks|)
  }

  /** `getPriorityColor`: high is danger, medium warning, low info, anything else none. */
  function PriorityColor(priority: string): (r: Option<string>)
    ensures priority == "high" ==> r == Some("danger")
    ensures priority == "medium" ==> r == Some("warning")
    ensures priority == "low" ==> r == Some("info")
    ensures priority !in {"high", "medium", "low"} ==> r == None
  {
    var colors := map["high" := "danger", "medium" := "warning", "low" := "info"];
    if priority in colors then Some(colors[priority]) else None
  }

  const CategoryIcons: map<string, string> := map[
    "personal" := "👤", "work" := "💼", "health" := "🏥", "learning" := "📚", "social" := "👥"]

  function CategoryIcon(category: string): (r: Option<string>)
    ensures r.Some? <==> category in {"personal", "work", "health", "learning", "social"}
  {
    if category in CategoryIcons then Some(CategoryIcons[category]) else None
  }

  /** The two planners agree on colours, and on the icon of every category
      this one knows; the premium one knows two more. */
  lemma TablesAgreeWithPremium(priority: string, category: string)
    ensures PriorityColor(priority) == PremiumPlanner.PriorityColor(priority)
    ensures CategoryIcon(category).Some? ==> CategoryIcon(category) == PremiumPlanner.CategoryIcon(category)
    ensures CategoryIcon("finance") == None && PremiumPlanner.CategoryIcon("finance").Some?
    ensures CategoryIcon("creative") == None && PremiumPlanner.CategoryIcon("creative").Some?
  {
  }

  /** The state of the `EnhancedPlanner` component. */
  class EnhancedPlanner {
    var tasks: seq<Task>
    var newTask: TaskForm

    constructor ()
      ensures tasks == [] && newTask == BlankForm
    {
      tasks := [];
      newTask := BlankForm;
    }

    /** `addTask`: blank text (after trimming) is ignored; otherwise the task
        goes first and the form is reset. */
    method AddTask(id: int, createdAt: string)
      modifies this
      ensures IsBlank(old(newTask.text)) ==> tasks == old(tasks) && newTask == old(newTask)
      ensures !IsBlank(old(newTask.text)) ==>
                tasks == [NewTask(old(newTask), id, createdAt)] + old(tasks) && newTask == BlankForm
    {
      if IsBlank(newTask.text) {
        return;
      }
      tasks := [NewTask(newTask, id, createdAt)] + tasks;
      newTask := BlankForm;
    }

    method ToggleTask(id: int)
      modifies this
      ensures tasks == Toggled(old(tasks), id) && newTask == old(newTask)
    {
      tasks := Toggled(tasks, id);
    }

    method DeleteTask(id: int)
      modifies this
      ensures tasks == Without(old(tasks), id) && newTask == old(newTask)
    {
      tasks := Without(tasks, id);
    }
  }
}
