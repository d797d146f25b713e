/**
 * The game state held by src/context/GameContext.jsx: the player's profile,
 * the task list and the inventory, with `addTask` and `completeTask`.
 * Remote reads and writes are left out; the outcome of the remote insert of
 * `addTask` is a parameter.
 */
module GameContext {
  import opened Wrappers
  import Sampling
  import Catalog

  type TaskId = int

  datatype Status = Pending | Completed

  /** The `taskData` object handed to `addTask`. */
  datatype TaskInput = TaskInput(title: string, description: string, subtasksCount: int)

  /** A task row: the input fields, the owner and the monster assigned at creation. */
  datatype Task = Task(
    id: TaskId,
    userId: string,
    title: string,
    description: string,
    subtasksCount: int,
    isProject: bool,
    monsterName: string,
    monsterType: string,
    hp: int,
    status: Status)

  datatype Profile = Profile(id: string, xp: int, coins: int, level: int)

  datatype ItemKind = SeedItem | ConsumableItem {
    /** The item type as the source spells it. */
    function Label(): string {
      match this
      case SeedItem => "seed"
      case ConsumableItem => "consumable"
    }
  }

  /** The two item types are stored under distinct names. */
  lemma ItemKindLabels(a: ItemKind, b: ItemKind)
    ensures a.Label() == b.Label() <==> a == b
  {
  }

  /** One kind of inventory unit: name, type and rarity, as `updateInventory` receives them. */
  datatype Item = Item(name: string, kind: ItemKind, rarity: Catalog.Rarity)

  /** The value `completeTask` returns for a task it found. */
  datatype Completion = Completion(xpGained: int, coinsGained: int, task: Task)

  /** A task with this many subtasks or more is a project (a boss fight). */
  const ProjectThreshold := 5
  const DailyHp := 100
  const DailyType := "daily"

  /** The daily monster names listed inline in `addTask` (GameContext.jsx:44-50). */
  const DailyMonsterNames: seq<string> := [
    "Slime de la Procrastinación",
    "Goblin del Desorden",
    "Gárgola de la Indecisión",
    "Espectro de la Notificación",
    "Mimic de la Falsa Urgencia"
  ]

  datatype MonsterAssignment = MonsterAssignment(name: string, monsterType: string, hp: int)

  /** The bosses listed inline in `addTask` (GameContext.jsx:58-63). */
  const Bosses: seq<MonsterAssignment> := [
    MonsterAssignment("Cronos, el Devorador de Plazos", "boss_cronos", 500),
    MonsterAssignment("La Hidra de los Pendientes Infinitos", "boss_hydra", 500),
    MonsterAssignment("El Dragón del Burnout (Agotamiento)", "boss_dragon", 800),
    MonsterAssignment("El Titán del Gran Compromiso", "boss_titan", 1000)
  ]

  predicate IsProject(subtasksCount: int) {
    subtasksCount >= ProjectThreshold
  }

  predicate IsBoss(a: MonsterAssignment) {
    exists i :: 0 <= i < |Bosses| && Bosses[i] == a
  }

  /**
   * The monster `addTask` assigns: a random boss for a project, otherwise a
   * random daily monster of type `daily` with 100 hp. `r` is the one
   * `Math.random()` sample the chosen branch draws.
   */
  function AssignMonster(isProject: bool, r: real): (a: MonsterAssignment)
    requires 0.0 <= r < 1.0
    ensures isProject ==> IsBoss(a)
    ensures !isProject ==> a.monsterType == DailyType && a.hp == DailyHp && a.name in DailyMonsterNames
    ensures a.hp in {100, 500, 800, 1000}
  {
    if isProject then
      Sampling.Pick(Bosses, r)
    else
      MonsterAssignment(Sampling.Pick(DailyMonsterNames, r), DailyType, DailyHp)
  }

  /** The row `addTask` builds from `taskData`, with the id the store assigns on insert. */
  function NewTask(userId: string, data: TaskInput, r: real, id: TaskId): (t: Task)
    requires 0.0 <= r < 1.0
    ensures t.id == id && t.userId == userId
    ensures t.title == data.title && t.description == data.description
    ensures t.subtasksCount == data.subtasksCount
    ensures t.isProject <==> data.subtasksCount >= 5
    ensures t.status == Pending
    ensures !t.isProject ==> t.monsterType == "daily" && t.hp == 100 && t.monsterName in DailyMonsterNames
    ensures t.isProject ==> IsBoss(MonsterAssignment(t.monsterName, t.monsterType, t.hp))
  {
    var project := IsProject(data.subtasksCount);
    var monster := AssignMonster(project, r);
    Task(id, userId, data.title, data.description, data.subtasksCount, project,
         monster.name, monster.monsterType, monster.hp, Pending)
  }

  /** Every boss is a `boss_*` type with 500, 500, 800 or 1000 hp, in list order. */
  lemma BossTable()
    ensures |Bosses| == 4 && |DailyMonsterNames| == 5
    ensures forall a :: IsBoss(a) ==> a.monsterType != DailyType && a.hp >= 500
    ensures Bosses[0].hp == 500 && Bosses[1].hp == 500 && Bosses[2].hp == 800 && Bosses[3].hp == 1000
  {
  }

  /** XP granted for completing a task: 50 for a project, 10 otherwise, never more than a level's width. */
  function XpReward(isProject: bool): (xp: int)
    ensures isProject ==> xp == 50
    ensures !isProject ==> xp == 10
    ensures 0 < xp <= 100
  {
    if isProject then 50 else 10
  }

  /** Coins granted for completing a task: 20 for a project, 5 otherwise; a project pays four times more. */
  function CoinReward(isProject: bool): (coins: int)
    ensures isProject ==> coins == 20
    ensures !isProject ==> coins == 5
    ensures coins > 0
  {
    if isProject then 20 else 5
  }

  /** `Math.floor(xp / 100) + 1`: the level whose 100-XP band holds `xp`. */
  function LevelFor(xp: int): (level: int)
    ensures 100 * (level - 1) <= xp < 100 * level
  {
    xp / 100 + 1
  }

  /**
   * `{ ...profile, xp: newXp, coins: newCoins, level: newLevel }` for a
   * completed task: its kind's XP and coins added, the level recomputed
   * from the new XP, the id kept.
   */
  function Rewarded(p: Profile, task: Task): (q: Profile)
    ensures q.id == p.id
    ensures q.xp == p.xp + XpReward(task.isProject) && q.coins == p.coins + CoinReward(task.isProject)
    ensures LevelConsistent(q)
  {
    var newXp := p.xp + XpReward(task.isProject);
    p.(xp := newXp, coins := p.coins + CoinReward(task.isProject), level := LevelFor(newXp))
  }

  /** The level of a profile is the one its XP determines. */
  predicate LevelConsistent(p: Profile) {
    p.level == LevelFor(p.xp)
  }

  /** The band condition pins the level down: only one level has `xp` in its band. */
  lemma LevelUnique(xp: int, level: int)
    requires 100 * (level - 1) <= xp < 100 * level
    ensures level == LevelFor(xp)
  {
  }

  /** More XP never means a lower level; 0 to 99 XP is level 1. */
  lemma LevelMonotone(xp1: int, xp2: int)
    requires xp1 <= xp2
    ensures LevelFor(xp1) <= LevelFor(xp2)
    ensures 0 <= xp1 < 100 ==> LevelFor(xp1) == 1
  {
    if 0 <= xp1 < 100 {
      LevelUnique(xp1, 1);
    }
  }

  /**
   * From the first XP of a level, one more level takes exactly ten daily
   * completions or two project completions.
   */
  lemma CompletionsPerLevel(level: int)
    ensures var xp := 100 * (level - 1);
      && LevelFor(xp + 9 * XpReward(false)) == level
      && LevelFor(xp + 10 * XpReward(false)) == level + 1
      && LevelFor(xp + XpReward(true)) == level
      && LevelFor(xp + 2 * XpReward(true)) == level + 1
  {
    var xp := 100 * (level - 1);
    LevelUnique(xp + 90, level);
    LevelUnique(xp + 100, level + 1);
    LevelUnique(xp + 50, level);
  }

  /** `tasks.find(t => t.id === taskId)`: a task with that id, if there is one. */
  function FindTask(tasks: seq<Task>, id: TaskId): (r: Option<Task>)
    ensures r.None? <==> forall i :: 0 <= i < |tasks| ==> tasks[i].id != id
    ensures r.Some? ==> r.value in tasks && r.value.id == id
  {
    if tasks == [] then None
    else if tasks[0].id == id then Some(tasks[0])
    else
      var r := FindTask(tasks[1..], id);
      assert forall i :: 1 <= i < |tasks| ==> tasks[i] == tasks[1..][i - 1];
      r
  }

  /** The task found is the first one with that id. */
  lemma {:induction false} FindTaskFirst(tasks: seq<Task>, id: TaskId, k: nat)
    requires k < |tasks| && tasks[k].id == id
    requires forall j :: 0 <= j < k ==> tasks[j].id != id
    ensures FindTask(tasks, id) == Some(tasks[k])
  {
    if k > 0 {
      FindTaskFirst(tasks[1..], id, k - 1);
    }
  }

  /**
   * `tasks.map(t => t.id === taskId ? { ...t, status: 'completed' } : t)`:
   * same length and order; every task with that id is completed, every
   * other task is untouched.
   */
  function MarkCompleted(tasks: seq<Task>, id: TaskId): (r: seq<Task>)
    ensures |r| == |tasks|
    ensures forall i :: 0 <= i < |tasks| && tasks[i].id == id ==> r[i] == tasks[i].(status := Completed)
    ensures forall i :: 0 <= i < |tasks| && tasks[i].id != id ==> r[i] == tasks[i]
  {
    if tasks == [] then []
    else
      var head := if tasks[0].id == id then tasks[0].(status := Completed) else tasks[0];
      [head] + MarkCompleted(tasks[1..], id)
  }

  /** Marking a task completed a second time changes nothing more. */
  lemma MarkCompletedIdempotent(tasks: seq<Task>, id: TaskId)
    ensures MarkCompleted(MarkCompleted(tasks, id), id) == MarkCompleted(tasks, id)
  {
    var once := MarkCompleted(tasks, id);
    var twice := MarkCompleted(once, id);
    assert forall i :: 0 <= i < |tasks| ==> twice[i] == once[i];
  }

  /** After completion the task found under that id is the same task, now completed. */
  lemma {:induction false} FindAfterMark(tasks: seq<Task>, id: TaskId)
    ensures FindTask(MarkCompleted(tasks, id), id) ==
      if FindTask(tasks, id).None? then None else Some(FindTask(tasks, id).value.(status := Completed))
  {
    if tasks != [] {
      var marked := MarkCompleted(tasks, id);
      assert marked[1..] == MarkCompleted(tasks[1..], id);
      FindAfterMark(tasks[1..], id);
    }
  }

  /**
   * The state the provider holds. `updateProfile` and `updateInventory` are
   * used by the store and the focus timer but are not part of the provider
   * value; they are modelled here as setting the coins and as adding units
   * of one item.
   */
  class Game {
    const userId: string
    var profile: Profile
    var tasks: seq<Task>
    var inventory: multiset<Item>

    constructor (userId: string, profile: Profile, tasks: seq<Task>, inventory: multiset<Item>)
      ensures this.userId == userId && this.profile == profile
      ensures this.tasks == tasks && this.inventory == inventory
    {
      this.userId := userId;
      this.profile := profile;
      this.tasks := tasks;
      this.inventory := inventory;
    }

    /**
     * `addTask(data)`: builds the task row and prepends the stored row when
     * the insert succeeds (`inserted` is the id it was stored under); when the
     * insert fails nothing changes.
     */
    method AddTask(data: TaskInput, monsterSample: real, inserted: Option<TaskId>)
      requires 0.0 <= monsterSample < 1.0
      modifies this
      ensures profile == old(profile) && inventory == old(inventory)
      ensures inserted.None? ==> tasks == old(tasks)
      ensures inserted.Some? ==> tasks == [NewTask(userId, data, monsterSample, inserted.value)] + old(tasks)
    {
      var newTask := NewTask(userId, data, monsterSample, if inserted.Some? then inserted.value else 0);
      if inserted.Some? {
        tasks := [newTask] + tasks;
      }
    }

    /**
     * `completeTask(taskId)` called from the current render: an unknown id
     * returns null and changes nothing. Otherwise the rewards of the task's
     * kind are granted whatever its status, the task is marked completed
     * and the level is recomputed.
     */
    method CompleteTask(taskId: TaskId) returns (result: Option<Completion>)
      modifies this
      ensures inventory == old(inventory)
      ensures FindTask(old(tasks), taskId).None? ==>
        result.None? && tasks == old(tasks) && profile == old(profile)
      ensures FindTask(old(tasks), taskId).Some? ==>
        var task := FindTask(old(tasks), taskId).value;
        && result == Some(Completion(XpReward(task.isProject), CoinReward(task.isProject), task))
        && tasks == MarkCompleted(old(tasks), taskId)
        && profile == Rewarded(old(profile), task)
      ensures result.Some? ==> LevelConsistent(profile)
    {
      result := CompleteTaskAsOf(tasks, profile, taskId);
    }

    /**
     * `completeTask(taskId)` called through the closure of an earlier
     * render, which read `seenTasks` and `seenProfile`: the lookup, the
     * marked list and the new profile are all computed from that state,
     * and replace whatever the state has become since.
     */
    method CompleteTaskAsOf(seenTasks: seq<Task>, seenProfile: Profile, taskId: TaskId)
      returns (result: Option<Completion>)
      modifies this
      ensures inventory == old(inventory)
      ensures FindTask(seenTasks, taskId).None? ==>
        result.None? && tasks == old(tasks) && profile == old(profile)
      ensures FindTask(seenTasks, taskId).Some? ==>
        var task := FindTask(seenTasks, taskId).value;
        && result == Some(Completion(XpReward(task.isProject), CoinReward(task.isProject), task))
        && tasks == MarkCompleted(seenTasks, taskId)
        && profile == Rewarded(seenProfile, task)
      ensures result.Some? ==> LevelConsistent(profile)
    {
      var found := FindTask(seenTasks, taskId);
      if found.None? {
        return None;
      }
      var task := found.value;
      tasks := MarkCompleted(seenTasks, taskId);
      profile := Rewarded(seenProfile, task);
      result := Some(Completion(XpReward(task.isProject), CoinReward(task.isProject), task));
    }

    /** `updateProfile({ coins })`: sets the coins and nothing else. */
    method UpdateProfileCoins(coins: int)
      modifies this
      ensures profile == old(profile).(coins := coins)
      ensures tasks == old(tasks) && inventory == old(inventory)
    {
      profile := profile.(coins := coins);
    }

    /** `updateInventory(name, n, type, rarity)`: adds `n` units of that item. */
    method UpdateInventory(name: string, n: nat, kind: ItemKind, rarity: Catalog.Rarity)
      modifies this
      ensures inventory == old(inventory)[Item(name, kind, rarity) := old(inventory)[Item(name, kind, rarity)] + n]
      ensures profile == old(profile) && tasks == old(tasks)
    {
      var item := Item(name, kind, rarity);
      inventory := inventory[item := inventory[item] + n];
    }
  }
}
