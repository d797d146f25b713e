/**
 * The seed catalog of src/data/catalog.js and its gacha draw `getRandomSeed`.
 * The catalog is written section by section, in the file's own order; the
 * exported `SEED_CATALOG` is their concatenation.
 */
module Catalog {
  import Sampling

  /** The five rarity tiers, listed from the most common to the rarest. */
  datatype Rarity = Comun | Rara | Epica | Exotica | MercadoNegro {
    /** The rarity as the source spells it. */
    function Label(): string {
      match this
      case Comun => "Común"
      case Rara => "Rara"
      case Epica => "Épica"
      case Exotica => "Exótica"
      case MercadoNegro => "Mercado Negro"
    }

    /** 0 for Común up to 4 for Mercado Negro. */
    function Rank(): nat {
      match this
      case Comun => 0
      case Rara => 1
      case Epica => 2
      case Exotica => 3
      case MercadoNegro => 4
    }
  }

  /** Distinct tiers are spelled differently, so the source's string comparisons tell them apart. */
  lemma RarityLabels(a: Rarity, b: Rarity)
    ensures a.Label() == b.Label() <==> a == b
    ensures a.Rank() == b.Rank() <==> a == b
  {
  }

  /** The sprite templates the catalog refers to. */
  datatype Art = SeedArt | SproutArt | FlowerArt | MushroomArt | TreeArt | CactusArt {
    /** The template key as the source spells it. */
    function Key(): string {
      match this
      case SeedArt => "seed"
      case SproutArt => "sprout"
      case FlowerArt => "flower"
      case MushroomArt => "mushroom"
      case TreeArt => "tree"
      case CactusArt => "cactus"
    }
  }

  /** Distinct templates have distinct keys. */
  lemma ArtKeys(a: Art, b: Art)
    ensures a.Key() == b.Key() <==> a == b
  {
  }

  /** The sprite template drawn for each growth stage of a seed. */
  datatype Sprites = Sprites(seed: Art, sprout: Art, young: Art, master: Art)

  datatype SeedEntry = Seed(id: string, name: string, rarity: Rarity, color: string, sprites: Sprites)

  /** Section COMUNES, 25 seeds (catalog.js:2-27). */
  const CommonSeeds: seq<SeedEntry> := [
    Seed("c1", "Brote de Trigo", Comun, "#84cc16", Sprites(SeedArt, SproutArt, SproutArt, FlowerArt)),
    Seed("c2", "Margarita Blanca", Comun, "#94a3b8", Sprites(SeedArt, SproutArt, SproutArt, FlowerArt)),
    Seed("c3", "Diente de León", Comun, "#fef08a", Sprites(SeedArt, SproutArt, SproutArt, FlowerArt)),
    Seed("c4", "Helecho Simple", Comun, "#4ade80", Sprites(SeedArt, SproutArt, SproutArt, FlowerArt)),
    Seed("c5", "Césped Silvestre", Comun, "#22c55e", Sprites(SeedArt, SproutArt, SproutArt, SproutArt)),
    Seed("c6", "Musgo de Roca", Comun, "#15803d", Sprites(SeedArt, MushroomArt, SproutArt, TreeArt)),
    Seed("c7", "Trepadora Verde", Comun, "#86efac", Sprites(SeedArt, SproutArt, SproutArt, FlowerArt)),
    Seed("c8", "Arbusto Frutal", Comun, "#dc2626", Sprites(SeedArt, SproutArt, SproutArt, TreeArt)),
    Seed("c9", "Zanahoria", Comun, "#f97316", Sprites(SeedArt, SproutArt, SproutArt, SproutArt)),
    Seed("c10", "Tomate", Comun, "#ef4444", Sprites(SeedArt, SproutArt, SproutArt, FlowerArt)),
    Seed("c11", "Papa", Comun, "#d97706", Sprites(SeedArt, SproutArt, SproutArt, SproutArt)),
    Seed("c12", "Cebolla", Comun, "#fcd34d", Sprites(SeedArt, SproutArt, SproutArt, SproutArt)),
    Seed("c13", "Hongo Marrón", Comun, "#78350f", Sprites(SeedArt, SproutArt, MushroomArt, MushroomArt)),
    Seed("c14", "Hongo Rojo", Comun, "#b91c1c", Sprites(SeedArt, SproutArt, MushroomArt, MushroomArt)),
    Seed("c15", "Girasol Básico", Comun, "#facc15", Sprites(SeedArt, SproutArt, SproutArt, FlowerArt)),
    Seed("c16", "Tulipán Rosa", Comun, "#f472b6", Sprites(SeedArt, SproutArt, SproutArt, FlowerArt)),
    Seed("c17", "Rosa Roja", Comun, "#be123c", Sprites(SeedArt, SproutArt, SproutArt, FlowerArt)),
    Seed("c18", "Hibisco", Comun, "#fb7185", Sprites(SeedArt, SproutArt, SproutArt, FlowerArt)),
    Seed("c19", "Loto Blanco", Comun, "#cbd5e1", Sprites(SeedArt, SproutArt, SproutArt, FlowerArt)),
    Seed("c20", "Bambú", Comun, "#16a34a", Sprites(SeedArt, SproutArt, TreeArt, TreeArt)),
    Seed("c21", "Pino", Comun, "#14532d", Sprites(SeedArt, SproutArt, SproutArt, TreeArt)),
    Seed("c22", "Roble", Comun, "#1e40af", Sprites(SeedArt, SproutArt, SproutArt, TreeArt)),
    Seed("c23", "Palmera", Comun, "#fbbf24", Sprites(SeedArt, SproutArt, SproutArt, TreeArt)),
    Seed("c24", "Cactus Básico", Comun, "#65a30d", Sprites(SeedArt, SproutArt, CactusArt, CactusArt)),
    Seed("c25", "Trébol", Comun, "#22c55e", Sprites(SeedArt, SproutArt, FlowerArt, FlowerArt))
  ]

  /** Section RARAS, 15 seeds (catalog.js:29-44). */
  const RareSeeds: seq<SeedEntry> := [
    Seed("r1", "Bonsái de Enebro", Rara, "#3b82f6", Sprites(SeedArt, SproutArt, SproutArt, TreeArt)),
    Seed("r2", "Orquídea Azul", Rara, "#60a5fa", Sprites(SeedArt, SproutArt, SproutArt, FlowerArt)),
    Seed("r3", "Lirio Naranja", Rara, "#fdba74", Sprites(SeedArt, SproutArt, SproutArt, FlowerArt)),
    Seed("r4", "Rosa de Cristal", Rara, "#93c5fd", Sprites(SeedArt, SproutArt, SproutArt, FlowerArt)),
    Seed("r5", "Girasol Lunar", Rara, "#fcd34d", Sprites(SeedArt, SproutArt, SproutArt, FlowerArt)),
    Seed("r6", "Hongo Brillante", Rara, "#a7f3d0", Sprites(SeedArt, MushroomArt, MushroomArt, MushroomArt)),
    Seed("r7", "Bambú de Hierro", Rara, "#94a3b8", Sprites(SeedArt, SproutArt, TreeArt, TreeArt)),
    Seed("r8", "Cactus Espiral", Rara, "#a3e635", Sprites(SeedArt, SproutArt, CactusArt, CactusArt)),
    Seed("r9", "Loto Turquesa", Rara, "#2dd4bf", Sprites(SeedArt, SproutArt, SproutArt, FlowerArt)),
    Seed("r10", "Tulipán Negro", Rara, "#334155", Sprites(SeedArt, SproutArt, SproutArt, FlowerArt)),
    Seed("r11", "Palmera de Neón", Rara, "#c084fc", Sprites(SeedArt, SproutArt, SproutArt, TreeArt)),
    Seed("r12", "Cerezo en Flor", Rara, "#f472b6", Sprites(SeedArt, SproutArt, SproutArt, TreeArt)),
    Seed("r13", "Manzano Dorado", Rara, "#fbbf24", Sprites(SeedArt, SproutArt, SproutArt, TreeArt)),
    Seed("r14", "Enredadera Espinosa", Rara, "#b91c1c", Sprites(SeedArt, SproutArt, SproutArt, FlowerArt)),
    Seed("r15", "Planta Carnívora", Rara, "#dc2626", Sprites(SeedArt, SproutArt, SproutArt, FlowerArt))
  ]

  /** Section ÉPICAS, 6 seeds (catalog.js:46-52). */
  const EpicSeeds: seq<SeedEntry> := [
    Seed("e1", "Girasol de Oro de 24k", Epica, "#fbbf24", Sprites(SeedArt, SproutArt, SproutArt, FlowerArt)),
    Seed("e2", "Árbol de Cristal", Epica, "#38bdf8", Sprites(SeedArt, SproutArt, SproutArt, TreeArt)),
    Seed("e3", "Rosa de Fuego", Epica, "#ef4444", Sprites(SeedArt, SproutArt, SproutArt, FlowerArt)),
    Seed("e4", "Loto Espiritual", Epica, "#e879f9", Sprites(SeedArt, SproutArt, SproutArt, FlowerArt)),
    Seed("e5", "Bambú Ascendente", Epica, "#4ade80", Sprites(SeedArt, SproutArt, TreeArt, TreeArt)),
    Seed("e6", "Hongo Galáctico", Epica, "#8b5cf6", Sprites(SeedArt, SproutArt, SproutArt, MushroomArt))
  ]

  /** Section EXÓTICAS, 3 seeds (catalog.js:54-57). */
  const ExoticSeeds: seq<SeedEntry> := [
    Seed("ex1", "Cactus de Plasma", Exotica, "#fcd34d", Sprites(SeedArt, SproutArt, SproutArt, CactusArt)),
    Seed("ex2", "Flora Flotante", Exotica, "#2dd4bf", Sprites(SeedArt, SproutArt, SproutArt, FlowerArt)),
    Seed("ex3", "Prisma Geométrico", Exotica, "#f472b6", Sprites(SeedArt, SproutArt, SproutArt, TreeArt))
  ]

  /** Section MERCADO NEGRO, 4 seeds (catalog.js:59-63). */
  const BlackMarketSeeds: seq<SeedEntry> := [
    Seed("b1", "Árbol del Tiempo", MercadoNegro, "#fbbf24", Sprites(SeedArt, SproutArt, SproutArt, TreeArt)),
    Seed("b2", "Lirio de Sangre", MercadoNegro, "#991b1b", Sprites(SeedArt, SproutArt, SproutArt, FlowerArt)),
    Seed("b3", "Hongo del Inframundo", MercadoNegro, "#4c1d95", Sprites(SeedArt, SproutArt, SproutArt, MushroomArt)),
    Seed("b4", "Enredadera del Caos", MercadoNegro, "#000000", Sprites(SeedArt, SproutArt, SproutArt, TreeArt))
  ]

  /** SEED_CATALOG: the sections in file order. */
  const SeedCatalog: seq<SeedEntry> := CommonSeeds + RareSeeds + EpicSeeds + ExoticSeeds + BlackMarketSeeds

  /** Every entry of `s` has rarity `t`. */
  predicate AllOf(s: seq<SeedEntry>, t: Rarity) {
    forall i :: 0 <= i < |s| ==> s[i].rarity == t
  }

  /** `s.filter(e => e.rarity === t)`: the entries of rarity `t`, in order. */
  function Filter(s: seq<SeedEntry>, t: Rarity): (r: seq<SeedEntry>)
    ensures |r| <= |s|
    ensures AllOf(r, t)
  {
    if s == [] then []
    else if s[0].rarity == t then [s[0]] + Filter(s[1..], t)
    else Filter(s[1..], t)
  }

  /** The filter keeps exactly the entries of rarity `t`. */
  lemma {:induction false} FilterMembers(s: seq<SeedEntry>, t: Rarity)
    ensures forall e :: e in Filter(s, t) <==> e in s && e.rarity == t
  {
    if s != [] {
      FilterMembers(s[1..], t);
      assert s == [s[0]] + s[1..];
    }
  }

  lemma {:induction false} FilterAppend(a: seq<SeedEntry>, b: seq<SeedEntry>, t: Rarity)
    ensures Filter(a + b, t) == Filter(a, t) + Filter(b, t)
  {
    if a == [] {
      assert a + b == b;
    } else {
      assert (a + b)[0] == a[0];
      assert (a + b)[1..] == a[1..] + b;
      FilterAppend(a[1..], b, t);
    }
  }

  lemma {:induction false} FilterAllOf(s: seq<SeedEntry>, t: Rarity, u: Rarity)
    requires AllOf(s, u)
    ensures Filter(s, t) == if t == u then s else []
  {
    if s != [] {
      FilterAllOf(s[1..], t, u);
      if t == u {
        assert [s[0]] + s[1..] == s;
      }
    }
  }

  /** The entries of each section carry that section's rarity. */
  lemma SectionsAreTiers()
    ensures AllOf(CommonSeeds, Comun)
    ensures AllOf(RareSeeds, Rara)
    ensures AllOf(EpicSeeds, Epica)
    ensures AllOf(ExoticSeeds, Exotica)
    ensures AllOf(BlackMarketSeeds, MercadoNegro)
  {
  }

  /** The seeds of tier `t` in catalog order: the section of that tier. */
  function Section(t: Rarity): seq<SeedEntry> {
    match t
    case Comun => CommonSeeds
    case Rara => RareSeeds
    case Epica => EpicSeeds
    case Exotica => ExoticSeeds
    case MercadoNegro => BlackMarketSeeds
  }

  /** The pool `SEED_CATALOG.filter(s => s.rarity === t)` of the draw. */
  function Pool(t: Rarity): (pool: seq<SeedEntry>)
    ensures forall e :: e in pool <==> e in SeedCatalog && e.rarity == t
  {
    FilterMembers(SeedCatalog, t);
    Filter(SeedCatalog, t)
  }

  /**
   * Filtering five sections of distinct tiers, concatenated in tier order,
   * gives back the section of the requested tier.
   */
  lemma {:induction false} FilterSections(c: seq<SeedEntry>, r: seq<SeedEntry>, e: seq<SeedEntry>,
                                          x: seq<SeedEntry>, b: seq<SeedEntry>, t: Rarity)
    requires AllOf(c, Comun) && AllOf(r, Rara) && AllOf(e, Epica)
    requires AllOf(x, Exotica) && AllOf(b, MercadoNegro)
    ensures Filter(c + r + e + x + b, t) == match t
      case Comun => c
      case Rara => r
      case Epica => e
      case Exotica => x
      case MercadoNegro => b
  {
    FilterAppend(c + r + e + x, b, t);
    FilterAppend(c + r + e, x, t);
    FilterAppend(c + r, e, t);
    FilterAppend(c, r, t);
    FilterAllOf(c, t, Comun);
    FilterAllOf(r, t, Rara);
    FilterAllOf(e, t, Epica);
    FilterAllOf(x, t, Exotica);
    FilterAllOf(b, t, MercadoNegro);
    var nil: seq<SeedEntry> := [];
    match t
    case Comun => assert c + nil + nil + nil + nil == c;
    case Rara => assert nil + r + nil + nil + nil == r;
    case Epica => assert nil + nil + e + nil + nil == e;
    case Exotica => assert nil + nil + nil + x + nil == x;
    case MercadoNegro => assert nil + nil + nil + nil + b == b;
  }

  /**
   * Filtering the catalog by a tier gives back exactly that tier's section,
   * so the section sizes of the source's comments are the pool sizes:
   * 25 Común, 15 Rara, 6 Épica, 3 Exótica and 4 Mercado Negro.
   */
  lemma PoolIsSection(t: Rarity)
    ensures Pool(t) == Section(t)
    ensures |Pool(t)| == match t
      case Comun => 25
      case Rara => 15
      case Epica => 6
      case Exotica => 3
      case MercadoNegro => 4
  {
    SectionsAreTiers();
    FilterSections(CommonSeeds, RareSeeds, EpicSeeds, ExoticSeeds, BlackMarketSeeds, t);
  }

  /** The catalog holds 53 seeds and no tier's pool is empty. */
  lemma CatalogShape()
    ensures |SeedCatalog| == 53
    ensures forall t: Rarity :: |Pool(t)| > 0
  {
    forall t: Rarity ensures |Pool(t)| > 0 {
      PoolIsSection(t);
    }
  }

  /**
   * The tier band of a sample `rand` in [0, 100), checked rarest first with
   * inclusive upper bounds: [0, 0.1], (0.1, 5], (5, 25], (25, 50], (50, 100).
   * Their widths 0.1, 4.9, 20, 25 and 50 are the tiers' chances in percent.
   */
  predicate InBand(rand: real, t: Rarity) {
    match t
    case MercadoNegro => rand <= 0.1
    case Exotica => 0.1 < rand <= 5.0
    case Epica => 5.0 < rand <= 25.0
    case Rara => 25.0 < rand <= 50.0
    case Comun => 50.0 < rand
  }

  /** The tier chosen by `getRandomSeed` for the sample `rand = Math.random() * 100`. */
  function TierFor(rand: real): (t: Rarity)
    ensures InBand(rand, t)
  {
    if rand <= 0.1 then MercadoNegro
    else if rand <= 5.0 then Exotica
    else if rand <= 25.0 then Epica
    else if rand <= 50.0 then Rara
    else Comun
  }

  /** The bands do not overlap, so the band of a sample decides its tier. */
  lemma TierForIsBand(rand: real, t: Rarity)
    ensures TierFor(rand) == t <==> InBand(rand, t)
  {
  }

  /** A smaller sample never yields a more common tier. */
  lemma TierForMonotone(rand1: real, rand2: real)
    requires rand1 <= rand2
    ensures TierFor(rand2).Rank() <= TierFor(rand1).Rank()
  {
  }

  /**
   * `getRandomSeed()`: the tier sample `tierSample` (in [0, 100)) picks the
   * tier, then `poolSample` (in [0, 1)) picks uniformly within its pool.
   */
  function GetRandomSeed(tierSample: real, poolSample: real): (s: SeedEntry)
    requires 0.0 <= poolSample < 1.0
    ensures s in SeedCatalog
    ensures s.rarity == TierFor(tierSample)
  {
    CatalogShape();
    Sampling.Pick(Pool(TierFor(tierSample)), poolSample)
  }

  /** A tier sample inside the band of tier `t`. */
  function SampleIn(t: Rarity): (rand: real)
    ensures 0.0 <= rand < 100.0 && TierFor(rand) == t
  {
    match t
    case MercadoNegro => 0.0
    case Exotica => 1.0
    case Epica => 10.0
    case Rara => 30.0
    case Comun => 60.0
  }

  /**
   * Every seed of every pool can come out of the box: a sample in the
   * tier's band followed by the pool sample k/n draws the pool's k-th seed.
   */
  lemma EverySeedDrawable(t: Rarity, k: nat)
    requires k < |Pool(t)|
    ensures 0.0 <= k as real / |Pool(t)| as real < 1.0
    ensures GetRandomSeed(SampleIn(t), k as real / |Pool(t)| as real) == Pool(t)[k]
  {
    Sampling.PickReaches(Pool(t), k);
  }

  /** Each catalog seed sits in the pool of its own tier. */
  lemma SeedInOwnPool(s: SeedEntry)
    requires s in SeedCatalog
    ensures exists k :: 0 <= k < |Pool(s.rarity)| && Pool(s.rarity)[k] == s
  {
    var pool := Pool(s.rarity);
    assert s in pool;
  }
}
