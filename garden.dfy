/**
 * The garden screen of src/components/garden/Garden.jsx: ten slots shown
 * from the player's garden rows, each either an empty plot or a plant with
 * its visual, name, stage and growth progress.
 */
module Garden {
  import opened Wrappers

  const SlotCount := 10
  /** Completed tasks a planting needs for the progress bar to fill. */
  const TasksToFill := 10

  /** A garden row as loaded; `stage` is the stored text and may hold anything. */
  datatype GardenSlot = GardenSlot(
    slotIndex: int,
    stage: string,
    seedId: Option<string>,
    isWilted: bool,
    tasksCompletedSincePlant: int)

  /** The icon `getPlantVisual` picks. */
  datatype PlantVisual = WiltedRose | Chestnut | SproutIcon | TreesIcon | FlowerIcon | NoVisual

  /** The four stages a planted slot can show. */
  const KnownStages: seq<string> := ["seed", "sprout", "young", "master"]

  /** `getPlantVisual(stage, isWilted)`: wilting wins over the stage. */
  function PlantVisualFor(stage: string, isWilted: bool): (v: PlantVisual)
    ensures isWilted ==> v == WiltedRose
    ensures !isWilted ==> (v == NoVisual <==> stage !in KnownStages)
  {
    if isWilted then WiltedRose
    else if stage == "seed" then Chestnut
    else if stage == "sprout" then SproutIcon
    else if stage == "young" then TreesIcon
    else if stage == "master" then FlowerIcon
    else NoVisual
  }

  /** `getStageName(stage)`: Spanish names of the four stages, `Vacío` for anything else. */
  function StageName(stage: string): (name: string)
    ensures name == "Vacío" <==> stage !in KnownStages
    ensures stage == "seed" ==> name == "Semilla"
    ensures stage == "sprout" ==> name == "Brote"
    ensures stage == "young" ==> name == "Planta Joven"
    ensures stage == "master" ==> name == "Planta Maestra"
  {
    if stage == "seed" then "Semilla"
    else if stage == "sprout" then "Brote"
    else if stage == "young" then "Planta Joven"
    else if stage == "master" then "Planta Maestra"
    else "Vacío"
  }

  /** The visual and the name agree on which stages are real ones, and give distinct answers to each. */
  lemma VisualMatchesName(s1: string, s2: string)
    ensures PlantVisualFor(s1, false) == NoVisual <==> StageName(s1) == "Vacío"
    ensures s1 in KnownStages && s2 in KnownStages && s1 != s2 ==>
      StageName(s1) != StageName(s2) && PlantVisualFor(s1, false) != PlantVisualFor(s2, false)
  {
  }

  /** `garden.find(g => g.slot_index === i)`: the first row for slot `i`, if any. */
  function FindSlot(garden: seq<GardenSlot>, i: int): (r: Option<GardenSlot>)
    ensures r.None? <==> forall k :: 0 <= k < |garden| ==> garden[k].slotIndex != i
    ensures r.Some? ==> exists k :: 0 <= k < |garden| && garden[k] == r.value && r.value.slotIndex == i &&
                          forall j :: 0 <= j < k ==> garden[j].slotIndex != i
  {
    if garden == [] then None
    else if garden[0].slotIndex == i then Some(garden[0])
    else
      var r := FindSlot(garden[1..], i);
      assert forall k :: 1 <= k < |garden| ==> garden[k] == garden[1..][k - 1];
      r
  }

  /**
   * `isEmpty`: no row for the slot, or a row whose stage is `empty`. A row
   * in one of the four growth stages is never empty, wilted or not.
   */
  predicate IsEmptySlot(slot: Option<GardenSlot>): (empty: bool)
    ensures slot.None? ==> empty
    ensures slot.Some? && slot.value.stage in KnownStages ==> !empty
  {
    slot.None? || slot.value.stage == "empty"
  }

  /** The width of the progress bar, `min(100, progress / 10 * 100)` percent. */
  function ProgressFill(progress: int): (percent: int)
    ensures percent <= 100
    ensures percent == 100 <==> progress >= TasksToFill
    ensures progress <= TasksToFill ==> percent * TasksToFill == progress * 100
  {
    if 10 * progress < 100 then 10 * progress else 100
  }

  /** What one of the ten cards shows. */
  datatype SlotView =
    | EmptyPlot(number: int)
    | PlantCard(number: int, visual: PlantVisual, title: string, titleInDanger: bool,
                stageName: string, fill: int, progress: int)

  /** The card for slot `i`; cards are numbered from 1. */
  function ViewSlot(garden: seq<GardenSlot>, i: int): (v: SlotView)
    ensures v.number == i + 1
    ensures v.EmptyPlot? <==> IsEmptySlot(FindSlot(garden, i))
  {
    var slot := FindSlot(garden, i);
    if IsEmptySlot(slot) then EmptyPlot(i + 1)
    else
      var s := slot.value;
      var title := if s.seedId.None? || s.seedId.value == "" then "Unknown Plant" else s.seedId.value;
      PlantCard(i + 1, PlantVisualFor(s.stage, s.isWilted), title, s.isWilted,
                StageName(s.stage), ProgressFill(s.tasksCompletedSincePlant), s.tasksCompletedSincePlant)
  }

  /** `[...Array(10)].map((_, i) => ...)`: exactly ten cards, slot 0 to slot 9. */
  function ViewGarden(garden: seq<GardenSlot>): (views: seq<SlotView>)
    ensures |views| == SlotCount
    ensures forall i :: 0 <= i < SlotCount ==> views[i] == ViewSlot(garden, i)
  {
    seq(SlotCount, i requires 0 <= i < SlotCount => ViewSlot(garden, i))
  }

  /**
   * Card `i` is an empty plot exactly when no row has slot index `i` or the
   * first such row is `empty`; otherwise it shows that first row, with the
   * wilted rose whenever the row is wilted.
   */
  lemma ViewGardenSlot(garden: seq<GardenSlot>, i: int, k: int)
    requires 0 <= i < SlotCount
    requires 0 <= k < |garden| && garden[k].slotIndex == i
    requires forall j :: 0 <= j < k ==> garden[j].slotIndex != i
    ensures ViewGarden(garden)[i].EmptyPlot? <==> garden[k].stage == "empty"
    ensures garden[k].stage != "empty" ==>
      var v := ViewGarden(garden)[i];
      && v.stageName == StageName(garden[k].stage)
      && v.progress == garden[k].tasksCompletedSincePlant
      && (garden[k].isWilted ==> v.visual == WiltedRose && v.titleInDanger)
  {
    var found := FindSlot(garden, i);
    var m :| 0 <= m < |garden| && garden[m] == found.value && found.value.slotIndex == i &&
             forall j :: 0 <= j < m ==> garden[j].slotIndex != i;
    assert m == k;
  }

  /** Rows for indices outside 0..9 never reach the screen. */
  lemma OutOfRangeRowsIgnored(garden: seq<GardenSlot>, extra: GardenSlot)
    requires !(0 <= extra.slotIndex < SlotCount)
    ensures ViewGarden(garden + [extra]) == ViewGarden(garden)
  {
    var g2 := garden + [extra];
    forall i | 0 <= i < SlotCount
      ensures ViewSlot(g2, i) == ViewSlot(garden, i)
    {
      FindSlotAppend(garden, extra, i);
    }
  }

  lemma {:induction false} FindSlotAppend(garden: seq<GardenSlot>, extra: GardenSlot, i: int)
    requires extra.slotIndex != i
    ensures FindSlot(garden + [extra], i) == FindSlot(garden, i)
  {
    if garden != [] {
      assert (garden + [extra])[1..] == garden[1..] + [extra];
      FindSlotAppend(garden[1..], extra, i);
    } else {
      assert garden + [extra] == [extra];
    }
  }
}
