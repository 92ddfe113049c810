/** The completion page (src/pages/game-complete.tsx): the completion precondition, the rounded
    percentages, the level earned and the final score. */
module GameComplete {
  import opened Resources
  import opened Destinations
  import opened Excursions
  import opened Souvenirs
  import opened GameStore

  /** Where the page's effect sends the player. */
  datatype Redirect = Home | Journey | Stay

  /** The id of the last catalogue destination. */
  function FinalDestinationId(): string
  {
    destinations[|destinations| - 1].id
  }

  /** The player stands at the final destination and has completed one of its excursions. */
  predicate FinalPrecondition(s: GameState)
  {
    && s.player.currentDestinationId == FinalDestinationId()
    && exists e | e in GetExcursionsByDestination(FinalDestinationId()) :: e.id in s.player.completedExcursions
  }

  /** The effect's redirect for a state. */
  function EffectRedirect(s: GameState): Redirect
  {
    if !s.gameStarted then Home
    else if FinalPrecondition(s) then Stay
    else if !s.gameCompleted then Journey
    else Stay
  }

  /** The page's effect on the store: `completeGame` when the precondition holds, a redirect to
      the start page before the game started, and to the journey while not completed. */
  method CompletionEffect(store: Store) returns (r: Redirect)
    requires store.Valid()
    modifies store
    ensures store.Valid()
    ensures r == EffectRedirect(old(store.State()))
    ensures old(store.gameStarted) && FinalPrecondition(old(store.State()))
      ==> store.State() == Apply(old(store.State()), CompleteGame)
    ensures !(old(store.gameStarted) && FinalPrecondition(old(store.State())))
      ==> store.State() == old(store.State())
  {
    if !store.gameStarted {
      return Home;
    }
    if FinalPrecondition(store.State()) {
      store.CompleteGame();
      r := Stay;
    } else if !store.gameCompleted {
      r := Journey;
    } else {
      r := Stay;
    }
  }

  /** With the shipped catalogue the final destination has no excursions, so the precondition
      never holds and the effect never completes the game. */
  lemma CompletionUnreachable(s: GameState)
    ensures !FinalPrecondition(s)
    ensures EffectRedirect(s) != Stay || s.gameCompleted || !s.gameStarted
  {
    NoBaselExcursions();
    assert FinalDestinationId() == "basel";
  }

  /** `Math.round(100 * done / total)`: the nearest whole percentage, halves rounded up. */
  function Percentage(done: nat, total: nat): (p: int)
    requires total > 0
    ensures 2 * total * p <= 200 * done + total < 2 * total * (p + 1)
  {
    (200 * done + total) / (2 * total)
  }

  /** Multiplying by a non-negative factor keeps an order. */
  lemma MulMonotone(t: int, x: int, y: int)
    requires t >= 0 && x <= y
    ensures t * x <= t * y
  {
    assert t * y - t * x == t * (y - x);
  }

  /** The percentage is never negative, 100 for a full count, and at most 100 when the count
      does not exceed the total. */
  lemma PercentageBounds(done: nat, total: nat)
    requires total > 0
    ensures 0 <= Percentage(done, total)
    ensures done == total ==> Percentage(done, total) == 100
    ensures done <= total ==> Percentage(done, total) <= 100
  {
    var p := Percentage(done, total);
    var t := 2 * total;
    if p < 0 {
      MulMonotone(t, p + 1, 0);
    }
    if done <= total && p > 100 {
      MulMonotone(t, 101, p);
      MulMonotone(200, done, total);
    }
    if done == total && p < 100 {
      MulMonotone(t, p + 1, 100);
    }
  }

  /** A larger count never gives a smaller percentage. */
  lemma PercentageMonotone(d1: nat, d2: nat, total: nat)
    requires total > 0 && d1 <= d2
    ensures Percentage(d1, total) <= Percentage(d2, total)
  {
    var p1 := Percentage(d1, total);
    var p2 := Percentage(d2, total);
    if p2 < p1 {
      MulMonotone(2 * total, p2 + 1, p1);
    }
  }

  function ExcursionPercentage(p: PlayerState): int
  {
    Percentage(|p.completedExcursions|, |excursions|)
  }

  function SouvenirPercentage(p: PlayerState): int
  {
    Percentage(|p.collectedSouvenirs|, |souvenirs|)
  }

  /** The level shown on the page: cruise veteran for at least 80% of excursions and 70% of
      souvenirs, else history buff for at least 50% and 40%, else the stored level. */
  function FinalLevel(p: PlayerState): (l: Level)
    ensures ExcursionPercentage(p) >= 80 && SouvenirPercentage(p) >= 70 ==> l == CruiseVeteran
    ensures (!(ExcursionPercentage(p) >= 80 && SouvenirPercentage(p) >= 70)
             && ExcursionPercentage(p) >= 50 && SouvenirPercentage(p) >= 40) ==> l == HistoryBuff
    ensures (!(ExcursionPercentage(p) >= 80 && SouvenirPercentage(p) >= 70)
             && !(ExcursionPercentage(p) >= 50 && SouvenirPercentage(p) >= 40)) ==> l == p.level
  {
    var e := ExcursionPercentage(p);
    var s := SouvenirPercentage(p);
    if e >= 80 && s >= 70 then CruiseVeteran
    else if e >= 50 && s >= 40 then HistoryBuff
    else p.level
  }

  /** With 10 excursions and 13 souvenirs: 8 excursions and 9 souvenirs (69%) are not enough for
      the top level, while 8 and 10 (77%) are; 5 and 5 (38%) stay below history buff. */
  lemma LevelThresholds(p: PlayerState)
    ensures |excursions| == 10 && |souvenirs| == 13
    ensures |p.completedExcursions| == 8 && |p.collectedSouvenirs| == 9 ==> FinalLevel(p) == HistoryBuff
    ensures |p.completedExcursions| == 8 && |p.collectedSouvenirs| == 10 ==> FinalLevel(p) == CruiseVeteran
    ensures |p.completedExcursions| == 5 && |p.collectedSouvenirs| == 5 ==> FinalLevel(p) == p.level
  {
    Excursions.CatalogueFacts();
    Souvenirs.CatalogueFacts();
  }

  /** The final score: the score plus 15 per completed excursion, 20 per collected souvenir and 5
      per full ten points of knowledge (rounded down, also for a negative balance). */
  function FinalScore(p: PlayerState): (f: int)
    ensures f == p.score + 15 * |p.completedExcursions| + 20 * |p.collectedSouvenirs|
                 + 5 * Floor10(p.resources.culturalKnowledge)
  {
    var knowledgeBonus := (p.resources.culturalKnowledge / 10) * 5;
    p.score + |p.completedExcursions| * 15 + |p.collectedSouvenirs| * 20 + knowledgeBonus
  }

  /** `Math.floor(x / 10)`, characterised without division. */
  function Floor10(x: int): (q: int)
    ensures 10 * q <= x < 10 * q + 10
  {
    x / 10
  }

  /** The final score is at least the score when knowledge is not negative. */
  lemma FinalScoreAtLeastScore(p: PlayerState)
    requires p.resources.culturalKnowledge >= 0
    ensures FinalScore(p) >= p.score
  {
  }

  /** More excursions, more souvenirs or more knowledge never lower the final score. */
  lemma FinalScoreMonotone(p: PlayerState, q: PlayerState)
    requires p.score <= q.score
    requires |p.completedExcursions| <= |q.completedExcursions|
    requires |p.collectedSouvenirs| <= |q.collectedSouvenirs|
    requires p.resources.culturalKnowledge <= q.resources.culturalKnowledge
    ensures FinalScore(p) <= FinalScore(q)
  {
  }

  /** Play Again resets the store. */
  method PlayAgain(store: Store)
    modifies store
    ensures store.Valid() && store.State() == initialGameState
  {
    store.ResetGame();
  }
}
