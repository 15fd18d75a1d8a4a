/** The `Planner` page: a task list that only a signed-in user can add to. */
module PlannerPage {

  datatype Task = Task(id: int, task: string)

  /** The state of the `Planner` page; `showLogin` stands for the parent's
      flag that `setShowLogin` raises. */
  class Planner {
    var task: string
    var tasks: seq<Task>
    var showLogin: bool

    constructor ()
      ensures task == "" && tasks == [] && !showLogin
    {
      task := "";
      tasks := [];
      showLogin := false;
    }

    /** `add`: a signed-out user gets the login prompt, before the input is
        looked at; an empty input changes nothing; otherwise the task goes
        first and the input is cleared. */
    method Add(isLoggedIn: bool, id: int)
      modifies this
      ensures !isLoggedIn ==> showLogin && tasks == old(tasks) && task == old(task)
      ensures isLoggedIn && old(task) == "" ==> tasks == old(tasks) && task == old(task) && showLogin == old(showLogin)
      ensures isLoggedIn && old(task) != "" ==>
                tasks == [Task(id, old(task))] + old(tasks) && task == "" && showLogin == old(showLogin)
    {
      if !isLoggedIn {
        showLogin := true;
        return;
      }
      if task == "" {
        return;
      }
      tasks := [Task(id, task)] + tasks;
      task := "";
    }
  }
}
