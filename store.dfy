/**
 * The shop of src/components/store/Store.jsx: the seed box (gacha) and the
 * two consumables. Purchases go through the game's `updateProfile` and
 * `updateInventory`.
 */
module Store {
  import opened Wrappers
  import Catalog
  import GameContext

  const GachaPrice := 100
  const WaterPrice := 10
  const FertilizerPrice := 50
  const WaterName := "Agua Destilada"
  const FertilizerName := "Fertilizante Premium"

  /** What the result dialog shows after a draw. */
  datatype GachaResult = GachaResult(rarity: Catalog.Rarity, seedName: string, color: string)

  /** The inventory after one more unit of `item`. */
  function AddOne(inventory: multiset<GameContext.Item>, item: GameContext.Item): (r: multiset<GameContext.Item>)
    ensures r[item] == inventory[item] + 1
    ensures forall other :: other != item ==> r[other] == inventory[other]
    ensures |r| == |inventory| + 1
  {
    inventory + multiset{item}
  }

  /**
   * The shop screen. `triggerGacha` awaits an animation delay between its
   * balance check and the draw, so a draw is split into `OpenGacha` (the
   * click, up to the await) and `FinishGacha` (the continuation).
   * `coinsAtClick` is the balance the click handler captured: the
   * continuation checks and deducts from that value, as the handler's
   * closure over `profile` does.
   */
  class Store {
    const game: GameContext.Game
    var purchasing: bool
    var gachaResult: Option<GachaResult>
    var coinsAtClick: int

    /** A draw is only open when the captured balance paid for it. */
    ghost predicate Valid()
      reads this
    {
      purchasing ==> coinsAtClick >= GachaPrice
    }

    constructor (game: GameContext.Game)
      ensures Valid() && this.game == game
      ensures !purchasing && gachaResult.None?
    {
      this.game := game;
      purchasing := false;
      gachaResult := None;
      coinsAtClick := 0;
    }

    /**
     * A click on the box button. While a draw is open the button is
     * disabled and nothing happens; with fewer than 100 coins the handler
     * alerts and returns. Otherwise the draw opens: `purchasing` is set and
     * the previous result is cleared. No coins move yet.
     */
    method OpenGacha() returns (started: bool)
      requires Valid()
      modifies this
      ensures Valid()
      ensures started == (!old(purchasing) && game.profile.coins >= GachaPrice)
      ensures started ==> purchasing && gachaResult.None? && coinsAtClick == game.profile.coins
      ensures !started ==>
        purchasing == old(purchasing) && gachaResult == old(gachaResult) && coinsAtClick == old(coinsAtClick)
    {
      if purchasing {
        return false;
      }
      if game.profile.coins < GachaPrice {
        return false;
      }
      coinsAtClick := game.profile.coins;
      purchasing := true;
      gachaResult := None;
      started := true;
    }

    /**
     * The rest of `triggerGacha` after the delay: draws a seed, deducts 100
     * from the captured balance, adds one unit of the seed to the inventory,
     * records the result and closes the draw.
     */
    method FinishGacha(tierSample: real, poolSample: real) returns (seed: Catalog.SeedEntry)
      requires Valid() && purchasing
      requires 0.0 <= poolSample < 1.0
      modifies this, game
      ensures Valid() && !purchasing
      ensures seed == Catalog.GetRandomSeed(tierSample, poolSample)
      ensures seed in Catalog.SeedCatalog && seed.rarity == Catalog.TierFor(tierSample)
      ensures game.profile == old(game.profile).(coins := old(coinsAtClick) - GachaPrice)
      ensures game.profile.coins >= 0
      ensures game.inventory == AddOne(old(game.inventory), GameContext.Item(seed.name, GameContext.SeedItem, seed.rarity))
      ensures game.tasks == old(game.tasks)
      ensures gachaResult == Some(GachaResult(seed.rarity, seed.name, seed.color))
    {
      seed := Catalog.GetRandomSeed(tierSample, poolSample);
      Collect(seed);
    }

    /** The continuation once `seed` is drawn: the guarded deduction and inventory update, then the result. */
    method Collect(seed: Catalog.SeedEntry)
      requires Valid() && purchasing
      modifies this, game
      ensures Valid() && !purchasing
      ensures game.profile == old(game.profile).(coins := old(coinsAtClick) - GachaPrice)
      ensures game.profile.coins >= 0
      ensures game.inventory == AddOne(old(game.inventory), GameContext.Item(seed.name, GameContext.SeedItem, seed.rarity))
      ensures game.tasks == old(game.tasks)
      ensures gachaResult == Some(GachaResult(seed.rarity, seed.name, seed.color))
    {
      if coinsAtClick >= GachaPrice {
        game.UpdateProfileCoins(coinsAtClick - GachaPrice);
        game.UpdateInventory(seed.name, 1, GameContext.SeedItem, seed.rarity);
      }
      gachaResult := Some(GachaResult(seed.rarity, seed.name, seed.color));
      purchasing := false;
    }

    /** Closing the result dialog (the button and the overlay). */
    method DismissResult()
      modifies this
      ensures gachaResult.None?
      ensures purchasing == old(purchasing) && coinsAtClick == old(coinsAtClick)
    {
      gachaResult := None;
    }

    /**
     * `buyConsumable(price, name)`: with fewer than `price` coins nothing
     * changes; otherwise `price` is deducted and one unit of `name` is added
     * as a common consumable.
     */
    method BuyConsumable(price: int, name: string) returns (bought: bool)
      modifies game
      ensures bought == (old(game.profile.coins) >= price)
      ensures bought ==> game.profile == old(game.profile).(coins := old(game.profile.coins) - price)
                         && game.profile.coins >= 0
                         && game.inventory == AddOne(old(game.inventory),
                              GameContext.Item(name, GameContext.ConsumableItem, Catalog.Comun))
      ensures !bought ==> game.profile == old(game.profile) && game.inventory == old(game.inventory)
      ensures game.tasks == old(game.tasks)
    {
      if game.profile.coins < price {
        return false;
      }
      game.UpdateProfileCoins(game.profile.coins - price);
      game.UpdateInventory(name, 1, GameContext.ConsumableItem, Catalog.Comun);
      bought := true;
    }

    /** The "Agua Destilada" button: 10 coins. */
    method BuyWater() returns (bought: bool)
      modifies game
      ensures bought == (old(game.profile.coins) >= WaterPrice)
      ensures bought ==> game.profile == old(game.profile).(coins := old(game.profile.coins) - 10)
                         && game.inventory == AddOne(old(game.inventory),
                              GameContext.Item("Agua Destilada", GameContext.ConsumableItem, Catalog.Comun))
      ensures !bought ==> game.profile == old(game.profile) && game.inventory == old(game.inventory)
      ensures game.tasks == old(game.tasks)
      ensures old(game.profile.coins) >= 0 ==> game.profile.coins >= 0
    {
      bought := BuyConsumable(WaterPrice, WaterName);
    }

    /** The "Fertilizante Premium" button: 50 coins. */
    method BuyFertilizer() returns (bought: bool)
      modifies game
      ensures bought == (old(game.profile.coins) >= FertilizerPrice)
      ensures bought ==> game.profile == old(game.profile).(coins := old(game.profile.coins) - 50)
                         && game.inventory == AddOne(old(game.inventory),
                              GameContext.Item("Fertilizante Premium", GameContext.ConsumableItem, Catalog.Comun))
      ensures !bought ==> game.profile == old(game.profile) && game.inventory == old(game.inventory)
      ensures game.tasks == old(game.tasks)
      ensures old(game.profile.coins) >= 0 ==> game.profile.coins >= 0
    {
      bought := BuyConsumable(FertilizerPrice, FertilizerName);
    }
  }

  /**
   * With no other change between the click and the continuation, a draw
   * costs exactly 100 coins of the balance the player had, and a click with
   * fewer than 100 coins moves neither coins nor items.
   */
  method GachaRound(store: Store, tierSample: real, poolSample: real) returns (started: bool)
    requires store.Valid() && !store.purchasing
    requires 0.0 <= poolSample < 1.0
    modifies store, store.game
    ensures store.Valid() && !store.purchasing
    ensures started == (old(store.game.profile.coins) >= GachaPrice)
    ensures started ==>
      var seed := Catalog.GetRandomSeed(tierSample, poolSample);
      && store.game.profile == old(store.game.profile).(coins := old(store.game.profile.coins) - GachaPrice)
      && store.game.inventory == AddOne(old(store.game.inventory), GameContext.Item(seed.name, GameContext.SeedItem, seed.rarity))
      && store.gachaResult == Some(GachaResult(seed.rarity, seed.name, seed.color))
    ensures !started ==>
      && store.game.profile == old(store.game.profile) && store.game.inventory == old(store.game.inventory)
      && store.gachaResult == old(store.gachaResult)
    ensures store.game.tasks == old(store.game.tasks)
  {
    started := store.OpenGacha();
    if started {
      var _ := store.FinishGacha(tierSample, poolSample);
    }
  }
}
