/**
 * The monster roster of src/data/bestiary.js and its two uniform pickers.
 */
module Bestiary {
  import Sampling

  datatype Monster = Monster(id: string, name: string, emoji: string, color: string, style: string)

  /** BESTIARY.daily (bestiary.js:2-8), ids d1 to d5. */
  const DailyMonsters: seq<Monster> := [
    Monster("d1", "Slime de la Procrastinación", "💧", "#3b82f6", "bounce"),
    Monster("d2", "Goblin del Desorden", "👺", "#16a34a", "shake"),
    Monster("d3", "Gárgola de la Indecisión", "🗿", "#64748b", "pulse"),
    Monster("d4", "Espectro de la Notificación", "👻", "#cbd5e1", "float_transparent"),
    Monster("d5", "Mimic de la Falsa Urgencia", "📦", "#d97706", "wobble")
  ]

  /** BESTIARY.bosses (bestiary.js:9-14), ids boss_*. */
  const BossMonsters: seq<Monster> := [
    Monster("boss_cronos", "Cronos, el Devorador de Plazos", "⏱️", "#fbbf24", "boss_clock"),
    Monster("boss_hydra", "La Hidra de los Pendientes", "🐉", "#10b981", "boss_multi"),
    Monster("boss_dragon", "El Dragón del Burnout", "🔥", "#ef4444", "boss_fire"),
    Monster("boss_titan", "El Titán del Compromiso", "🪨", "#475569", "boss_rock")
  ]

  const BossPrefix := "boss_"

  predicate IsBossId(id: string) {
    |BossPrefix| <= |id| && id[..|BossPrefix|] == BossPrefix
  }

  /** `getRandomDailyMonster()` for the sample `r = Math.random()`. */
  function GetRandomDailyMonster(r: real): (m: Monster)
    requires 0.0 <= r < 1.0
    ensures m in DailyMonsters
    ensures !IsBossId(m.id)
  {
    RosterShape();
    Sampling.Pick(DailyMonsters, r)
  }

  /** `getRandomBossMonster()` for the sample `r = Math.random()`. */
  function GetRandomBossMonster(r: real): (m: Monster)
    requires 0.0 <= r < 1.0
    ensures m in BossMonsters
    ensures IsBossId(m.id)
  {
    RosterShape();
    Sampling.Pick(BossMonsters, r)
  }

  /**
   * Five daily monsters and four bosses; every boss id has the `boss_`
   * prefix, no daily id has it, and so the two rosters share no id.
   */
  lemma RosterShape()
    ensures |DailyMonsters| == 5 && |BossMonsters| == 4
    ensures forall i :: 0 <= i < |BossMonsters| ==> IsBossId(BossMonsters[i].id)
    ensures forall i :: 0 <= i < |DailyMonsters| ==> !IsBossId(DailyMonsters[i].id)
    ensures forall i, j :: 0 <= i < |DailyMonsters| && 0 <= j < |BossMonsters| ==>
      DailyMonsters[i].id != BossMonsters[j].id
  {
  }

  /** Each roster picker can return every monster of its list. */
  lemma EveryMonsterDrawable(k: nat)
    ensures k < |DailyMonsters| ==> GetRandomDailyMonster(k as real / 5.0) == DailyMonsters[k]
    ensures k < |BossMonsters| ==> GetRandomBossMonster(k as real / 4.0) == BossMonsters[k]
  {
    if k < 5 {
      Sampling.PickReaches(DailyMonsters, k);
    }
    if k < 4 {
      Sampling.PickReaches(BossMonsters, k);
    }
  }
}
