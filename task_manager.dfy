/**
 * The task screen of src/components/tasks/TaskManager.jsx: the form that
 * summons a task, the combat arena that completes one, and the list of
 * pending tasks.
 */
module TaskManager {
  import opened Wrappers
  import GameContext

  /** The characters `String.prototype.trim` removes: ECMAScript white space and line terminators. */
  predicate IsJsSpace(c: char) {
    || c == ' ' || c == '\t' || c == '\n' || c == '\r' || c == '\U{000B}' || c == '\U{000C}'
    || c == '\U{00A0}' || c == '\U{1680}' || ('\U{2000}' <= c <= '\U{200A}')
    || c == '\U{2028}' || c == '\U{2029}' || c == '\U{202F}' || c == '\U{205F}'
    || c == '\U{3000}' || c == '\U{FEFF}'
  }

  /** Leading white space removed. */
  function TrimStart(s: string): (r: string)
    ensures |r| <= |s|
  {
    if s != [] && IsJsSpace(s[0]) then TrimStart(s[1..]) else s
  }

  /** Trailing white space removed. */
  function TrimEnd(s: string): (r: string)
    ensures |r| <= |s|
  {
    if s != [] && IsJsSpace(s[|s| - 1]) then TrimEnd(s[..|s| - 1]) else s
  }

  /** `TrimStart(s)` is the suffix of `s` after its leading white space, and starts with a non-space. */
  lemma {:induction false} TrimStartShape(s: string)
    ensures TrimStart(s) == s[|s| - |TrimStart(s)|..]
    ensures TrimStart(s) != [] ==> !IsJsSpace(TrimStart(s)[0])
    ensures forall i :: 0 <= i < |s| - |TrimStart(s)| ==> IsJsSpace(s[i])
  {
    if s != [] && IsJsSpace(s[0]) {
      TrimStartShape(s[1..]);
    }
  }

  /** `TrimEnd(s)` is the prefix of `s` before its trailing white space, and ends with a non-space. */
  lemma {:induction false} TrimEndShape(s: string)
    ensures TrimEnd(s) == s[..|TrimEnd(s)|]
    ensures TrimEnd(s) != [] ==> !IsJsSpace(TrimEnd(s)[|TrimEnd(s)| - 1])
    ensures forall i :: |TrimEnd(s)| <= i < |s| ==> IsJsSpace(s[i])
  {
    if s != [] && IsJsSpace(s[|s| - 1]) {
      TrimEndShape(s[..|s| - 1]);
    }
  }

  /** `s.trim()`: neither end of the result is white space. */
  function Trim(s: string): (r: string)
    ensures |r| <= |s|
    ensures r != [] ==> !IsJsSpace(r[0]) && !IsJsSpace(r[|r| - 1])
  {
    TrimStartShape(s);
    TrimEndShape(TrimStart(s));
    TrimEnd(TrimStart(s))
  }

  /** A string made only of white space (the empty string included). */
  predicate IsBlank(s: string) {
    forall i :: 0 <= i < |s| ==> IsJsSpace(s[i])
  }

  /** `!title.trim()` holds exactly for blank titles. */
  lemma TrimEmptyIffBlank(s: string)
    ensures Trim(s) == "" <==> IsBlank(s)
  {
    var t := TrimStart(s);
    TrimStartShape(s);
    TrimEndShape(t);
    if !IsBlank(s) {
      var k :| 0 <= k < |s| && !IsJsSpace(s[k]);
      assert t[k - (|s| - |t|)] == s[k];
    }
  }

  /** The guard of `handleAddTask`: `title.trim()` is not empty. */
  function HasTitle(title: string): (ok: bool)
    ensures ok <==> !IsBlank(title)
  {
    TrimEmptyIffBlank(title);
    Trim(title) != ""
  }

  /** `tasks.filter(t => t.status === 'pending')`. */
  function PendingTasks(tasks: seq<GameContext.Task>): (r: seq<GameContext.Task>)
    ensures |r| <= |tasks|
    ensures forall t :: t in r <==> t in tasks && t.status == GameContext.Pending
  {
    if tasks == [] then []
    else if tasks[0].status == GameContext.Pending then [tasks[0]] + PendingTasks(tasks[1..])
    else PendingTasks(tasks[1..])
  }

  /** The filter keeps the list order. */
  lemma {:induction false} PendingAppend(a: seq<GameContext.Task>, b: seq<GameContext.Task>)
    ensures PendingTasks(a + b) == PendingTasks(a) + PendingTasks(b)
  {
    if a == [] {
      assert a + b == b;
    } else {
      assert (a + b)[0] == a[0];
      assert (a + b)[1..] == a[1..] + b;
      PendingAppend(a[1..], b);
    }
  }

  /** The message "The forest is peaceful" shows exactly when no task is pending. */
  function ForestIsPeaceful(tasks: seq<GameContext.Task>): (peaceful: bool)
    ensures peaceful <==> forall i :: 0 <= i < |tasks| ==> tasks[i].status != GameContext.Pending
  {
    if |PendingTasks(tasks)| == 0 then
      assert forall i :: 0 <= i < |tasks| ==> tasks[i] in tasks;
      true
    else
      assert PendingTasks(tasks)[0] in PendingTasks(tasks);
      false
  }

  /** A newly stored task (always pending) heads the list on screen. */
  lemma NewTaskListedFirst(t: GameContext.Task, tasks: seq<GameContext.Task>)
    requires t.status == GameContext.Pending
    ensures PendingTasks([t] + tasks) == [t] + PendingTasks(tasks)
  {
    PendingAppend([t], tasks);
  }

  /** Once completed, no task with that id stays on the list; the others keep their place. */
  lemma {:induction false} CompletedLeavesList(tasks: seq<GameContext.Task>, id: GameContext.TaskId)
    ensures forall t :: t in PendingTasks(GameContext.MarkCompleted(tasks, id)) ==> t.id != id
    ensures PendingTasks(GameContext.MarkCompleted(tasks, id)) == PendingTasks(RemoveId(tasks, id))
  {
    if tasks != [] {
      var marked := GameContext.MarkCompleted(tasks, id);
      assert marked == [marked[0]] + marked[1..];
      assert marked[1..] == GameContext.MarkCompleted(tasks[1..], id);
      CompletedLeavesList(tasks[1..], id);
      PendingAppend([marked[0]], marked[1..]);
      if tasks[0].id == id {
        assert RemoveId(tasks, id) == RemoveId(tasks[1..], id);
      } else {
        assert RemoveId(tasks, id) == [tasks[0]] + RemoveId(tasks[1..], id);
        PendingAppend([tasks[0]], RemoveId(tasks[1..], id));
      }
    }
  }

  /** The tasks whose id is not `id`, in order. */
  function RemoveId(tasks: seq<GameContext.Task>, id: GameContext.TaskId): seq<GameContext.Task> {
    if tasks == [] then []
    else if tasks[0].id == id then RemoveId(tasks[1..], id)
    else [tasks[0]] + RemoveId(tasks[1..], id)
  }

  /**
   * A completion scheduled by a click in the arena: the id, and the task
   * list and profile that the click's render held, which are what the
   * delayed `completeTask` closure reads.
   */
  datatype Strike = Strike(taskId: GameContext.TaskId, tasks: seq<GameContext.Task>, profile: GameContext.Profile)

  /**
   * The form fields and the combat arena of the task screen. `scheduled`
   * holds the completions whose 1.5-second timer has not fired yet, oldest
   * first; timers of equal delay fire in the order they were set.
   */
  class TaskManager {
    const game: GameContext.Game
    var title: string
    var description: string
    var subtasksCount: int
    var activeCombat: Option<GameContext.Task>
    var scheduled: seq<Strike>

    /** Every scheduled completion is for a task its render could find. */
    ghost predicate Valid()
      reads this
    {
      forall k :: 0 <= k < |scheduled| ==> GameContext.FindTask(scheduled[k].tasks, scheduled[k].taskId).Some?
    }

    constructor (game: GameContext.Game)
      ensures Valid() && this.game == game
      ensures title == "" && description == "" && subtasksCount == 0 && activeCombat.None?
      ensures scheduled == []
    {
      this.game := game;
      title := "";
      description := "";
      subtasksCount := 0;
      activeCombat := None;
      scheduled := [];
    }

    /** The three inputs' `onChange` handlers. */
    method EditForm(newTitle: string, newDescription: string, newSubtasksCount: int)
      modifies this
      ensures title == newTitle && description == newDescription && subtasksCount == newSubtasksCount
      ensures activeCombat == old(activeCombat) && scheduled == old(scheduled)
    {
      title, description, subtasksCount := newTitle, newDescription, newSubtasksCount;
    }

    /**
     * `handleAddTask`: a blank title submits nothing and keeps the form.
     * Otherwise `addTask` receives the title, the description and the
     * subtask count, and the form is reset whether or not the insert
     * succeeded.
     */
    method HandleAddTask(monsterSample: real, inserted: Option<GameContext.TaskId>) returns (submitted: bool)
      requires 0.0 <= monsterSample < 1.0
      modifies this, game
      ensures submitted <==> !IsBlank(old(title))
      ensures !submitted ==> title == old(title) && description == old(description)
                             && subtasksCount == old(subtasksCount) && game.tasks == old(game.tasks)
      ensures submitted ==> title == "" && description == "" && subtasksCount == 0
      ensures submitted && inserted.Some? ==>
        var data := GameContext.TaskInput(old(title), old(description), old(subtasksCount));
        game.tasks == [GameContext.NewTask(game.userId, data, monsterSample, inserted.value)] + old(game.tasks)
      ensures submitted && inserted.None? ==> game.tasks == old(game.tasks)
      ensures game.profile == old(game.profile) && game.inventory == old(game.inventory)
      ensures activeCombat == old(activeCombat) && scheduled == old(scheduled)
    {
      submitted := HasTitle(title);
      if submitted {
        game.AddTask(GameContext.TaskInput(title, description, subtasksCount), monsterSample, inserted);
        title, description, subtasksCount := "", "", 0;
      }
    }

    /**
     * `handleComplete(taskId)`: an unknown id is ignored. A known task
     * enters the arena and its completion is scheduled with the state this
     * render holds.
     */
    method HandleComplete(taskId: GameContext.TaskId) returns (engaged: bool)
      requires Valid()
      modifies this
      ensures Valid()
      ensures engaged <==> exists i :: 0 <= i < |game.tasks| && game.tasks[i].id == taskId
      ensures engaged ==> activeCombat == GameContext.FindTask(game.tasks, taskId)
                          && activeCombat.value.id == taskId
                          && scheduled == old(scheduled) + [Strike(taskId, game.tasks, game.profile)]
      ensures !engaged ==> activeCombat == old(activeCombat) && scheduled == old(scheduled)
      ensures title == old(title) && description == old(description) && subtasksCount == old(subtasksCount)
    {
      var task := GameContext.FindTask(game.tasks, taskId);
      if task.None? {
        return false;
      }
      activeCombat := task;
      scheduled := scheduled + [Strike(taskId, game.tasks, game.profile)];
      engaged := true;
    }

    /**
     * The oldest combat timer fires: `completeTask(taskId)` runs on the
     * state its click saw, so the list and profile it writes are built from
     * that state and replace any change made in between.
     */
    method ResolveCombat() returns (result: Option<GameContext.Completion>)
      requires Valid() && scheduled != []
      modifies this, game
      ensures Valid()
      ensures scheduled == old(scheduled[1..])
      ensures var strike := old(scheduled[0]);
        var task := GameContext.FindTask(strike.tasks, strike.taskId).value;
        && result == Some(GameContext.Completion(GameContext.XpReward(task.isProject),
                                                 GameContext.CoinReward(task.isProject), task))
        && game.tasks == GameContext.MarkCompleted(strike.tasks, strike.taskId)
        && game.profile == GameContext.Rewarded(strike.profile, task)
        && forall t :: t in PendingTasks(game.tasks) ==> t.id != strike.taskId
      ensures GameContext.LevelConsistent(game.profile)
      ensures game.inventory == old(game.inventory)
      ensures activeCombat == old(activeCombat)
      ensures title == old(title) && description == old(description) && subtasksCount == old(subtasksCount)
    {
      var strike := scheduled[0];
      scheduled := scheduled[1..];
      result := game.CompleteTaskAsOf(strike.tasks, strike.profile, strike.taskId);
      CompletedLeavesList(strike.tasks, strike.taskId);
    }

    /** The arena timer set after each completion fires: the arena is cleared. */
    method ClearArena()
      modifies this
      ensures activeCombat.None?
      ensures scheduled == old(scheduled)
      ensures title == old(title) && description == old(description) && subtasksCount == old(subtasksCount)
    {
      activeCombat := None;
    }
  }

  /**
   * Two completions clicked within the same 1.5 seconds both read the list
   * as it was before either: the second write puts the first task back to
   * pending and the first reward is overwritten.
   */
  lemma SecondStrikeRevertsFirst(tasks: seq<GameContext.Task>, a: GameContext.TaskId, b: GameContext.TaskId, k: nat)
    requires a != b && k < |tasks| && tasks[k].id == a && tasks[k].status == GameContext.Pending
    ensures GameContext.MarkCompleted(tasks, b)[k].status == GameContext.Pending
    ensures tasks[k] in PendingTasks(GameContext.MarkCompleted(tasks, b))
  {
    var marked := GameContext.MarkCompleted(tasks, b);
    assert marked[k] == tasks[k];
  }
}
