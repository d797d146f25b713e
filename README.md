# QuestBloom core, modelled in Dafny

QuestBloom is a gamified task dashboard. Every task the player writes
summons a monster: a daily monster, or a boss when the task has five
subtasks or more. Completing the task defeats the monster and pays XP and
coins. Coins buy seeds from a gacha box and consumables from the shop. A
30-minute focus timer charges 5 coins for abandoning a work phase it has
started. The garden screen shows ten planting slots.

This project models the logic of those screens and proves what each one
promises:

- `GameContext` holds the game state, in class `Game`, with `AddTask`
  and `CompleteTask`. It also models the two store operations
  `updateProfile` and `updateInventory`, which the shop and the timer
  call. `CompleteTask` grants the rewards of the task's kind, marks the
  task completed and recomputes the level, which always stays the one
  that `floor(xp / 100) + 1` gives.
- `Catalog` holds the 53-seed catalog, section by section, and the
  two-stage draw `getRandomSeed`. The draw is proved to return a seed of
  the tier that the banded sample selects. Every pool is non-empty and
  exactly its section of the catalog, and every seed can be drawn.
- `Bestiary` holds the two monster rosters and their uniform pickers.
- `Sampling` models the shared idiom `list[Math.floor(Math.random() *
  list.length)]` and proves which index each sample selects.
- `Store` models the gacha box and the consumables, in class `Store`.
  The gacha is split at its `await`: `OpenGacha` is the click,
  `FinishGacha` is the continuation. The continuation checks and deducts
  against the balance the click captured.
- `Pomodoro` models the timer's state machine in class `PomodoroTimer`:
  tick, phase change, and start or stop with the penalty. It also models
  the hyper-growth flag the timer publishes and `formatTime`. The display
  is proved to round-trip through an `MM:SS` reader.
- `Garden` models the ten cards of the garden screen: which row each
  card shows, the icon, the stage name and the progress bar.
- `TaskManager` models the task screen in class `TaskManager`: the
  blank-title guard of the form, the form reset, the combat arena and
  the list of pending tasks. A click on a task's complete button puts
  the task in the arena and schedules its completion 1.5 seconds later.
  The scheduled callback belongs to the render of the click, so it calls
  `completeTask` with that render's task list and profile. The model
  keeps these scheduled completions in a queue (`scheduled`), each with
  the state its click saw. `ResolveCombat` runs the oldest one against
  that state, and `ClearArena` is the later 1-second callback.
  Consequently a purchase made during the delay is overwritten by the
  stale coin total. A second completion clicked within the same delay
  puts the first task back to pending.

Randomness enters as explicit sample parameters in [0, 1), the values
`Math.random()` returns. The tier sample of the gacha is the already
scaled `Math.random() * 100`. The outcome of a remote insert is a
parameter of `AddTask`. The confirmation dialog's answer is a parameter
of `TogglePlay`.

Four behaviours of the code are worth noting:

- Completing an already completed task is not rejected. `CompleteTask`
  finds the task whatever its status and pays the rewards again.
- The gacha bands use inclusive upper bounds (`rand <= 0.1`,
  `rand <= 5`, …), not half-open intervals.
- `updateProfile` and `updateInventory` are not in the provider value
  (src/context/GameContext.jsx:118), although the shop and the timer
  read them from it. They are modelled as setting the coins and as
  adding units of one item.
- The monster names `addTask` assigns come from its own inline lists.
  Three of its boss names differ from those in src/data/bestiary.js, so
  the two rosters are modelled separately.

## Model

| member | source | states |
|---|---|---|
| Sampling.PickIndex | src/data/catalog.js:76 | `floor(r * n)` is an index below `n`, and the one whose unit interval holds `r * n` |
| Sampling.PickIndexInterval | src/data/catalog.js:76 | sample `r` picks index `k` exactly when `k/n <= r < (k+1)/n`, so each index gets a `1/n` share |
| Sampling.EveryIndexReachable | src/data/bestiary.js:18 | every index of a non-empty list is picked by some sample in [0, 1) |
| Sampling.Pick | src/data/bestiary.js:18 | a uniform pick returns an element of the list |
| Sampling.PickReaches | src/data/bestiary.js:22 | sample `k/n` picks the `k`-th element |
| Catalog.RarityLabels | src/data/catalog.js:70-74 | the five tier names, and their ranks, tell distinct tiers apart |
| Catalog.ArtKeys | src/data/catalog.js:2-63 | distinct sprite templates have distinct keys |
| Catalog.Filter | src/data/catalog.js:70-74 | the rarity filter never grows the list, and keeps only entries of that rarity |
| Catalog.FilterMembers | src/data/catalog.js:70-74 | an entry survives the filter exactly when it is in the list and has that rarity |
| Catalog.FilterAppend | src/data/catalog.js:70-74 | filtering a concatenation is concatenating the filtered parts, so order is kept |
| Catalog.FilterAllOf | src/data/catalog.js:70-74 | a list all of one tier filters to itself for that tier and to nothing for any other |
| Catalog.SectionsAreTiers | src/data/catalog.js:2-63 | each of the five sections holds only seeds of its own tier |
| Catalog.Pool | src/data/catalog.js:70-74 | a pool holds exactly the catalog seeds of its tier |
| Catalog.FilterSections | src/data/catalog.js:1-64 | filtering five single-tier sections, in tier order, gives back the requested section |
| Catalog.PoolIsSection | src/data/catalog.js:2-63 | each tier's pool is its section: 25 Común, 15 Rara, 6 Épica, 3 Exótica, 4 Mercado Negro |
| Catalog.CatalogShape | src/data/catalog.js:1-64 | the catalog has 53 seeds and no tier's pool is empty, so the draw is always defined |
| Catalog.TierFor | src/data/catalog.js:70-74 | the tier chosen is the one whose inclusive-upper band holds the sample |
| Catalog.TierForIsBand | src/data/catalog.js:70-74 | the chosen tier is `t` exactly when the sample lies in `t`'s band |
| Catalog.TierForMonotone | src/data/catalog.js:70-74 | a lower sample never gives a more common tier |
| Catalog.GetRandomSeed | src/data/catalog.js:66-77 | the drawn seed is in the catalog and has the tier the band selected |
| Catalog.SampleIn | src/data/catalog.js:70-74 | every tier has a sample in [0, 100) that selects it |
| Catalog.EverySeedDrawable | src/data/catalog.js:76 | every seed of every pool is drawn by some pair of samples |
| Catalog.SeedInOwnPool | src/data/catalog.js:70-76 | each catalog seed sits in the pool of its own tier |
| Bestiary.GetRandomDailyMonster | src/data/bestiary.js:17-19 | the daily picker returns a daily monster, never one with a boss id |
| Bestiary.GetRandomBossMonster | src/data/bestiary.js:21-23 | the boss picker returns a boss, whose id starts with `boss_` |
| Bestiary.RosterShape | src/data/bestiary.js:1-15 | five daily monsters and four bosses; only bosses carry the `boss_` prefix, so no id is shared |
| Bestiary.EveryMonsterDrawable | src/data/bestiary.js:17-23 | each picker can return every monster of its roster |
| GameContext.AssignMonster | src/context/GameContext.jsx:52-71 | a project gets one of the four bosses; any other task gets a listed daily monster of type `daily` with 100 hp |
| GameContext.NewTask | src/context/GameContext.jsx:73-81 | the new row keeps the input fields and owner, is a project exactly at 5 subtasks or more, and is pending with its kind's monster |
| GameContext.BossTable | src/context/GameContext.jsx:58-63 | four bosses with 500, 500, 800 and 1000 hp, none of type `daily` |
| GameContext.ItemKindLabels | src/components/store/Store.jsx:37 | the `'seed'` and `'consumable'` type strings tell the two item kinds apart |
| GameContext.XpReward | src/context/GameContext.jsx:94 | a project pays 50 XP, any other task 10 |
| GameContext.CoinReward | src/context/GameContext.jsx:95 | a project pays 20 coins, any other task 5 |
| GameContext.CompletionsPerLevel | src/context/GameContext.jsx:94-103 | from the start of a level, ten daily completions or two project completions reach the next level, and nine or one do not |
| GameContext.Rewarded | src/context/GameContext.jsx:101-103 | the new profile keeps the id, adds the task kind's XP and coins, and has the level its XP determines |
| GameContext.LevelFor | src/context/GameContext.jsx:103 | the level is the one whose 100-XP band holds the XP |
| GameContext.LevelUnique | src/context/GameContext.jsx:103 | only one level has a given XP in its band |
| GameContext.LevelMonotone | src/context/GameContext.jsx:103 | more XP never lowers the level, and 0 to 99 XP is level 1 |
| GameContext.FindTask | src/context/GameContext.jsx:91-92 | no result exactly when no task has the id; otherwise a listed task with that id |
| GameContext.FindTaskFirst | src/context/GameContext.jsx:91 | the task found is the first one with that id |
| GameContext.MarkCompleted | src/context/GameContext.jsx:108 | same length and order; tasks with the id become completed, the others are untouched |
| GameContext.MarkCompletedIdempotent | src/context/GameContext.jsx:108 | marking twice is marking once |
| GameContext.FindAfterMark | src/context/GameContext.jsx:91-108 | after marking, the id finds the same task, now completed |
| GameContext.Game.constructor | src/context/GameContext.jsx:7-10 | the provider holds the given profile, task list and inventory |
| GameContext.Game.AddTask | src/context/GameContext.jsx:40-87 | a successful insert prepends the built row; a failed one changes nothing; profile and inventory are untouched |
| GameContext.Game.CompleteTask | src/context/GameContext.jsx:89-115 | an unknown id returns nothing and changes nothing; otherwise pays 50 XP and 20 coins for a project (10 and 5 otherwise), marks the task, recomputes the level, leaves the inventory alone, and returns the rewards and the task |
| GameContext.Game.CompleteTaskAsOf | src/context/GameContext.jsx:89-115 | the same completion, computed from the task list and profile an earlier render saw: the lookup, the marked list and the rewarded profile all come from that state and replace the current one |
| GameContext.Game.UpdateProfileCoins | src/components/store/Store.jsx:36 | sets the coins and nothing else |
| GameContext.Game.UpdateInventory | src/components/store/Store.jsx:57 | adds `n` units of the named item and changes nothing else |
| Store.AddOne | src/components/store/Store.jsx:37 | one more unit of the item, every other item's count unchanged |
| Store.Store.constructor | src/components/store/Store.jsx:13-14 | the shop starts with no draw open and no result shown |
| Store.Store.OpenGacha | src/components/store/Store.jsx:16-23 | the box opens only when no draw is open and the player has 100 coins; then it clears the old result and captures the balance, otherwise nothing changes |
| Store.Store.FinishGacha | src/components/store/Store.jsx:29-48 | the seed is `getRandomSeed`'s draw from the catalog; 100 coins are taken from the captured balance, one unit of the seed is added, and the result shows its rarity, name and colour |
| Store.Store.Collect | src/components/store/Store.jsx:35-48 | the guarded deduction and inventory update, then the result is shown and the draw closes |
| Store.Store.DismissResult | src/components/store/Store.jsx:155 | closing the dialog clears the result and nothing else |
| Store.Store.BuyConsumable | src/components/store/Store.jsx:51-59 | a purchase goes through exactly when the coins cover the price, costs the price and adds one common consumable; otherwise nothing changes |
| Store.Store.BuyWater | src/components/store/Store.jsx:85 | Agua Destilada goes through exactly with 10 coins or more; it then takes 10 coins, adds one common Agua Destilada and leaves XP, level and tasks alone; otherwise nothing changes |
| Store.Store.BuyFertilizer | src/components/store/Store.jsx:99 | Fertilizante Premium goes through exactly with 50 coins or more; it then takes 50 coins, adds one common Fertilizante Premium and leaves XP, level and tasks alone; otherwise nothing changes |
| Store.GachaRound | src/components/store/Store.jsx:16-49 | a full draw with 100 coins takes exactly 100, adds one unit of the drawn seed and shows that seed's rarity, name and colour; with fewer coins profile, inventory and result are unchanged; tasks are never touched |
| Pomodoro.HyperGrowthAfter | src/components/PomodoroTimer.jsx:31-40 | the flag is set while a work phase runs, cleared while stopped, and left alone during a break |
| Pomodoro.HyperGrowthIdempotent | src/components/PomodoroTimer.jsx:31-40 | re-running the effect with the same state changes nothing |
| Pomodoro.PomodoroTimer.constructor | src/components/PomodoroTimer.jsx:14-16 | the timer starts stopped in work mode at 30:00, with the flag off |
| Pomodoro.PomodoroTimer.Tick | src/components/PomodoroTimer.jsx:43-45 | a running phase loses one second and nothing else changes |
| Pomodoro.PomodoroTimer.HandleComplete | src/components/PomodoroTimer.jsx:53-66 | an ended work phase becomes a running 5-minute break; an ended break becomes a stopped 30-minute work phase |
| Pomodoro.PomodoroTimer.Advance | src/components/PomodoroTimer.jsx:43-51 | each step ticks, changes phase at 0, or does nothing while stopped, and keeps the timer invariant |
| Pomodoro.PomodoroTimer.TogglePlay | src/components/PomodoroTimer.jsx:68-90 | stopping a started work phase needs confirmation and costs 5 coins when the player has them; every stop resets to a stopped 30:00 work phase; starting only sets the timer running; coins never go negative |
| Pomodoro.NatToString | src/components/PomodoroTimer.jsx:95 | a number prints as at least one character |
| Pomodoro.NatToStringDigits | src/components/PomodoroTimer.jsx:95 | a number prints as decimal digits, without a leading zero, whose value is the number |
| Pomodoro.PadStart2 | src/components/PomodoroTimer.jsx:95 | padding gives at least two characters and never shortens |
| Pomodoro.PadStart2Zeros | src/components/PomodoroTimer.jsx:95 | padding only puts zeros in front of the text |
| Pomodoro.FormatTimeDigits | src/components/PomodoroTimer.jsx:92-96 | below 100 minutes the display is the two minute digits, a colon and the two second digits |
| Pomodoro.FormatTime | src/components/PomodoroTimer.jsx:92-96 | the display has at least 5 characters |
| Pomodoro.PaddedTwoDigits | src/components/PomodoroTimer.jsx:95 | a number below 100 prints, padded, as its tens digit then its units digit |
| Pomodoro.FormatTimeRoundTrip | src/components/PomodoroTimer.jsx:92-96 | below 100 minutes the display is `MM:SS` and reads back as the same number of seconds |
| Pomodoro.ParseTimeFormats | src/components/PomodoroTimer.jsx:92-96 | every `MM:SS` text with seconds below 60 is the display of the time it reads as |
| Pomodoro.TimerDisplay | src/components/PomodoroTimer.jsx:92-96 | every time the timer can hold shows as a 5-character `MM:SS` that reads back to it |
| Garden.PlantVisualFor | src/components/garden/Garden.jsx:11-20 | a wilted plant shows the wilted rose; otherwise there is no icon exactly for an unknown stage |
| Garden.StageName | src/components/garden/Garden.jsx:22-30 | the four stages' Spanish names, and `Vacío` exactly for any other stage |
| Garden.VisualMatchesName | src/components/garden/Garden.jsx:11-30 | icon and name agree on which stages are known, and tell distinct known stages apart |
| Garden.IsEmptySlot | src/components/garden/Garden.jsx:52 | a missing row is an empty plot, and a row at one of the four known stages is not |
| Garden.FindSlot | src/components/garden/Garden.jsx:51 | no row exactly when no row has the index; otherwise the first row with it |
| Garden.ProgressFill | src/components/garden/Garden.jsx:104 | the bar is capped at 100 percent, full exactly from 10 tasks on, and proportional below |
| Garden.ViewSlot | src/components/garden/Garden.jsx:50-106 | card `i` is numbered `i + 1` and is an empty plot exactly when its slot is empty |
| Garden.ViewGarden | src/components/garden/Garden.jsx:50-52 | exactly ten cards, card `i` showing slot `i` |
| Garden.ViewGardenSlot | src/components/garden/Garden.jsx:50-106 | a card shows the first row with its index: empty exactly for an `empty` stage, otherwise with that row's stage name and progress, and the wilted rose and danger title for a wilted row |
| Garden.OutOfRangeRowsIgnored | src/components/garden/Garden.jsx:50-51 | a row whose index is outside 0 to 9 never changes the screen |
| Garden.FindSlotAppend | src/components/garden/Garden.jsx:51 | a later row with another index does not change what the slot finds |
| TaskManager.TrimStart | src/components/tasks/TaskManager.jsx:16 | trimming the start never lengthens the title |
| TaskManager.TrimEnd | src/components/tasks/TaskManager.jsx:16 | trimming the end never lengthens the title |
| TaskManager.TrimStartShape | src/components/tasks/TaskManager.jsx:16 | the start trim removes exactly the leading white space |
| TaskManager.TrimEndShape | src/components/tasks/TaskManager.jsx:16 | the end trim removes exactly the trailing white space |
| TaskManager.Trim | src/components/tasks/TaskManager.jsx:16 | the trimmed title is no longer than the input, and starts and ends with a non-space character unless it is empty |
| TaskManager.TrimEmptyIffBlank | src/components/tasks/TaskManager.jsx:16 | a title trims to empty exactly when it is all white space |
| TaskManager.HasTitle | src/components/tasks/TaskManager.jsx:16 | the form submits exactly when the title has a non-space character |
| TaskManager.PendingTasks | src/components/tasks/TaskManager.jsx:92 | the list shows exactly the pending tasks |
| TaskManager.PendingAppend | src/components/tasks/TaskManager.jsx:92 | the pending filter keeps the list's order |
| TaskManager.ForestIsPeaceful | src/components/tasks/TaskManager.jsx:130-134 | the peaceful-forest message shows exactly when no task is pending |
| TaskManager.NewTaskListedFirst | src/components/tasks/TaskManager.jsx:92 | a newly added task heads the pending list |
| TaskManager.CompletedLeavesList | src/components/tasks/TaskManager.jsx:92 | once completed, no task with that id is listed, and the other tasks keep their place |
| TaskManager.TaskManager.constructor | src/components/tasks/TaskManager.jsx:8-12 | the form starts empty with 0 subtasks and no combat |
| TaskManager.TaskManager.EditForm | src/components/tasks/TaskManager.jsx:56-78 | the inputs set the three form fields and nothing else |
| TaskManager.TaskManager.HandleAddTask | src/components/tasks/TaskManager.jsx:14-27 | a blank title submits nothing and keeps the form; otherwise the task is added from the form fields and the form resets, whether or not the insert succeeded |
| TaskManager.TaskManager.HandleComplete | src/components/tasks/TaskManager.jsx:29-39 | a known id puts its task in the arena and schedules its completion with the task list and profile of the click; an unknown id changes nothing |
| TaskManager.TaskManager.ResolveCombat | src/components/tasks/TaskManager.jsx:36-37 | the oldest scheduled completion runs on its click-time task list and profile: it returns the rewards, marks the task, pays its kind's XP and coins with the level recomputed, and drops it off the pending list; the inventory, the arena and the form are unchanged |
| TaskManager.TaskManager.ClearArena | src/components/tasks/TaskManager.jsx:38 | the arena is cleared and nothing else changes |
| TaskManager.SecondStrikeRevertsFirst | src/components/tasks/TaskManager.jsx:36-39 | a second completion scheduled from the same task list leaves the first task pending and listed |

## Left out

- The Supabase reads and writes (`fetchData` and the table updates) are left out. The game state is held locally, and the insert outcome of `addTask` is a parameter.
- `Math.random()` is replaced by explicit sample parameters.
- The timers of the source are left out: the 1-second gacha delay, the 1.5-second and 1-second combat delays, and the interval of the focus timer. Each firing is one method call. Equal delays fire in the order they were set, so the combat's scheduled completions form a queue.
- Alerts, confetti, audio, animations and styling are left out, because they are presentation only.
- The localStorage writes of the focus timer's time and mode are left out. Only the hyper-growth flag is modelled.
- The null-profile guard of `togglePlay` is left out. The model always has a profile.
- FocusPlayer, fusion, plant growth and guest mode are not part of this model.
- Store.Store.FinishGacha: the continuation of the running handler reads the coins captured at the click. Other handlers running concurrently, and their interleavings, are not modelled.
- TaskManager.TaskManager.HandleAddTask: the subtask count is already a number. The `Number(...)` conversion of the input string, including `NaN`, is not modelled.
- GameContext.Game.AddTask: the insert and the prepend are one step. The source prepends to the task list of the submitting render, so a change landing during the insert's `await` would be overwritten; this is not modelled.
- GameContext.Game.AddTask: the stored row is the row that was built, under the id the insert assigns. Any other change the server makes to the row is not modelled.
- Garden.ProgressFill: the bar width is computed on integers as `10 * progress`. Floating-point rounding in the source's `progress / 10 * 100` is not modelled.
- Pomodoro.FormatTime: only times below 100 minutes are proved to round-trip, which covers every time the timer holds. Longer times print wider minutes.
