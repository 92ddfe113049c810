/** The souvenir shop (src/components/game/SouvenirShop.tsx): the price of a souvenir follows its
    rarity, and a purchase deducts the price, collects the souvenir, then applies its bonus. */
module SouvenirShop {
  import opened Resources
  import opened Souvenirs
  import opened GameStore

  /** The price by rarity: 50 for common, 150 for rare, 300 otherwise. */
  function Price(r: Rarity): (p: int)
    ensures p > 0
    ensures r == Common ==> p == 50
    ensures r == Rare ==> p == 150
    ensures r == Special ==> p == 300
  {
    if r == Common then 50 else if r == Rare then 150 else 300
  }

  /** The destination's souvenirs the player has not collected yet, in catalogue order. */
  function Available(xs: seq<Souvenir>, collected: seq<string>): (r: seq<Souvenir>)
    ensures |r| <= |xs|
    ensures forall s :: s in r <==> s in xs && s.id !in collected
  {
    if xs == [] then []
    else
      var rest := Available(xs[..|xs| - 1], collected);
      var last := xs[|xs| - 1];
      assert xs == xs[..|xs| - 1] + [last];
      if last.id in collected then rest else rest + [last]
  }

  /** `availableSouvenirs`: the offered list for a destination. */
  function AvailableSouvenirs(destinationId: string, collected: seq<string>): (r: seq<Souvenir>)
    ensures forall s :: s in r <==> s in souvenirs && s.destinationId == destinationId && s.id !in collected
  {
    Available(GetSouvenirsByDestination(destinationId), collected)
  }

  /** The Purchase button is enabled exactly when the player can pay. */
  predicate PurchaseEnabled(money: int, s: Souvenir)
  {
    !(money < Price(s.rarity))
  }

  /** The three store actions of a purchase, in order: deduct, collect, then the bonus. */
  function PurchaseActions(s: Souvenir): seq<Action>
  {
    [UpdateResources(Delta(None, Some(-Price(s.rarity)), None)), CollectSouvenir(s.id, s.pointValue)]
    + (if s.bonusEffect.Some? then [UpdateResources(s.bonusEffect.value)] else [])
  }

  /** `handlePurchaseSouvenir` on the store: runs the three store actions when the player has
      enough money, and otherwise only alerts (the alert is not modelled). */
  method HandlePurchaseSouvenir(store: Store, s: Souvenir) returns (purchased: bool)
    requires store.Valid()
    modifies store
    ensures store.Valid()
    ensures purchased <==> old(store.player.resources.money) >= Price(s.rarity)
    ensures purchased ==> store.State() == Run(old(store.State()), PurchaseActions(s))
    ensures !purchased ==> store.State() == old(store.State())
  {
    ghost var g := store.State();
    ghost var actions := PurchaseActions(s);
    var cost := Price(s.rarity);
    if store.player.resources.money >= cost {
      store.UpdateResources(Delta(None, Some(-cost), None));
      store.CollectSouvenir(s.id, s.pointValue);
      assert Run(g, actions) == Run(store.State(), actions[2..]);
      if s.bonusEffect.Some? {
        store.UpdateResources(s.bonusEffect.value);
        assert Run(g, actions) == Run(store.State(), actions[3..]);
      }
      purchased := true;
    } else {
      purchased := false;
    }
  }

  /** What a purchase does to the record: money falls by the price and rises by the bonus money,
      travel points and knowledge rise by their bonus, the score rises by the souvenir's points,
      the id is appended, and nothing else changes. */
  lemma PurchaseEffect(g: GameState, s: Souvenir)
    ensures var t := Run(g, PurchaseActions(s));
      var bonus := if s.bonusEffect.Some? then s.bonusEffect.value else NoDelta;
      && t.player.resources.money == g.player.resources.money - Price(s.rarity) + OrZero(bonus.money)
      && t.player.resources.travelPoints == g.player.resources.travelPoints + OrZero(bonus.travelPoints)
      && t.player.resources.culturalKnowledge == g.player.resources.culturalKnowledge + OrZero(bonus.culturalKnowledge)
      && t.player.score == g.player.score + s.pointValue
      && t.player.collectedSouvenirs == g.player.collectedSouvenirs + [s.id]
      && t.player.visitedDestinations == g.player.visitedDestinations
      && t.player.completedExcursions == g.player.completedExcursions
      && t.player.currentDestinationId == g.player.currentDestinationId
      && t.player.name == g.player.name && t.player.level == g.player.level
      && t.currentDestinationIndex == g.currentDestinationIndex
      && t.gameStarted == g.gameStarted && t.gameCompleted == g.gameCompleted
  {
    var a := PurchaseActions(s);
    var g1 := Apply(g, a[0]);
    var g2 := Apply(g1, a[1]);
    assert Run(g, a) == Run(g2, a[2..]);
    if s.bonusEffect.Some? {
      assert Run(g2, a[2..]) == Apply(g2, a[2]);
    } else {
      assert a[2..] == [];
    }
  }

  /** Buying a catalogue souvenir never lowers travel points or knowledge, and leaves at least
      the money the player had beyond the price. */
  lemma CatalogueBonusNeverLowers(g: GameState, i: nat)
    requires i < |souvenirs|
    ensures var t := Run(g, PurchaseActions(souvenirs[i]));
      && t.player.resources.travelPoints >= g.player.resources.travelPoints
      && t.player.resources.culturalKnowledge >= g.player.resources.culturalKnowledge
      && t.player.resources.money >= g.player.resources.money - Price(souvenirs[i].rarity)
  {
    CatalogueFacts();
    PurchaseEffect(g, souvenirs[i]);
  }

  /** A souvenir bought from the offered list was not collected before, so the collected list
      stays free of duplicates. */
  lemma ShopPurchaseNoDuplicate(g: GameState, destinationId: string, s: Souvenir)
    requires NoDuplicates(g.player.collectedSouvenirs)
    requires s in AvailableSouvenirs(destinationId, g.player.collectedSouvenirs)
    ensures NoDuplicates(Run(g, PurchaseActions(s)).player.collectedSouvenirs)
  {
    PurchaseEffect(g, s);
    var c := g.player.collectedSouvenirs;
    assert forall k :: 0 <= k < |c| ==> c[k] != s.id by {
      forall k | 0 <= k < |c| ensures c[k] != s.id {
        assert c[k] in c;
      }
    }
  }

  /** The button's enabled state agrees with the handler's own check. */
  lemma ButtonMatchesHandler(money: int, s: Souvenir)
    ensures PurchaseEnabled(money, s) <==> money >= Price(s.rarity)
  {
  }
}
