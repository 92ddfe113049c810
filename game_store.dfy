/** The progression store (src/store/gameStore.ts): one state record that every action
    replaces as a whole. */
module GameStore {
  import opened Resources

  datatype Level = CasualTraveler | HistoryBuff | CruiseVeteran

  datatype PlayerState = PlayerState(
    name: string,
    level: Level,
    resources: Resources,
    currentDestinationId: string,
    visitedDestinations: seq<string>,
    completedExcursions: seq<string>,
    collectedSouvenirs: seq<string>,
    score: int)

  datatype GameState = GameState(
    player: PlayerState,
    gameStarted: bool,
    currentDestinationIndex: int,
    gameCompleted: bool)

  const initialPlayerState: PlayerState :=
    PlayerState("", CasualTraveler, Resources(100, 1000, 0), "amsterdam", ["amsterdam"], [], [], 0)

  const initialGameState: GameState := GameState(initialPlayerState, false, 0, false)

  /** The store's own hard-coded copy of the route order, used by `moveToDestination`. */
  const route: seq<string> := ["amsterdam", "rotterdam", "cologne", "koblenz", "rudesheim", "basel"]

  /** The store's actions. */
  datatype Action =
    | SetPlayerName(name: string)
    | UpdateResources(delta: Delta)
    | MoveToDestination(destinationId: string)
    | CompleteExcursion(excursionId: string, rewards: Delta)
    | CollectSouvenir(souvenirId: string, pointValue: int)
    | StartGame
    | ResetGame
    | CompleteGame

  predicate NoDuplicates(xs: seq<string>)
  {
    forall i, j :: 0 <= i < j < |xs| ==> xs[i] != xs[j]
  }

  /** `xs.indexOf(x)`: the first index holding `x`, or -1. */
  function IndexOf(xs: seq<string>, x: string): (r: int)
    ensures -1 <= r < |xs|
    ensures r >= 0 ==> xs[r] == x && x !in xs[..r]
    ensures r == -1 <==> x !in xs
  {
    if xs == [] then -1
    else if xs[0] == x then 0
    else
      var r := IndexOf(xs[1..], x);
      assert xs == [xs[0]] + xs[1..];
      if r == -1 then -1
      else
        assert xs[..r + 1] == [xs[0]] + xs[1..][..r];
        r + 1
  }

  /** `Array.from(new Set(xs))`: every value once, at its first occurrence. */
  function Dedup(xs: seq<string>): (r: seq<string>)
    ensures NoDuplicates(r)
    ensures forall x :: x in r <==> x in xs
  {
    if xs == [] then []
    else
      var d := Dedup(xs[..|xs| - 1]);
      var x := xs[|xs| - 1];
      assert xs == xs[..|xs| - 1] + [x];
      if x in d then d else d + [x]
  }

  /** A list without duplicates passes through the set unchanged. */
  lemma {:induction false} DedupOfDistinct(xs: seq<string>)
    requires NoDuplicates(xs)
    ensures Dedup(xs) == xs
  {
    if xs != [] {
      var init := xs[..|xs| - 1];
      DedupOfDistinct(init);
      assert xs == init + [xs[|xs| - 1]];
    }
  }

  /** The new state record each action produces. */
  function Apply(s: GameState, a: Action): GameState
  {
    var p := s.player;
    match a
    case SetPlayerName(name) =>
      s.(player := p.(name := name))
    case UpdateResources(d) =>
      s.(player := p.(resources := Add(p.resources, d)))
    case MoveToDestination(id) =>
      s.(player := p.(currentDestinationId := id,
                      visitedDestinations := Dedup(p.visitedDestinations + [id])),
         currentDestinationIndex := IndexOf(route, id))
    case CompleteExcursion(id, rewards) =>
      s.(player := p.(completedExcursions := p.completedExcursions + [id],
                      resources := Add(p.resources, rewards),
                      score := p.score + 10))
    case CollectSouvenir(id, points) =>
      s.(player := p.(collectedSouvenirs := p.collectedSouvenirs + [id],
                      score := p.score + points))
    case StartGame => s.(gameStarted := true)
    case ResetGame => initialGameState
    case CompleteGame => s.(gameCompleted := true)
  }

  /** The actions applied one after another. */
  function Run(s: GameState, actions: seq<Action>): GameState
    decreases |actions|
  {
    if actions == [] then s else Run(Apply(s, actions[0]), actions[1..])
  }

  /** `updateResources` adds each supplied amount (absent = 0) and touches nothing else. */
  lemma UpdateResourcesAdds(s: GameState, d: Delta)
    ensures var t := Apply(s, UpdateResources(d));
      && t.player.resources.travelPoints == s.player.resources.travelPoints + OrZero(d.travelPoints)
      && t.player.resources.money == s.player.resources.money + OrZero(d.money)
      && t.player.resources.culturalKnowledge == s.player.resources.culturalKnowledge + OrZero(d.culturalKnowledge)
      && t.(player := t.player.(resources := s.player.resources)) == s
  {
  }

  /** `moveToDestination` sets the location, appends the target to the visited list only when it
      is new, records the target's route index (-1 when unknown) and changes nothing else. */
  lemma MoveUpdatesLocation(s: GameState, id: string)
    requires NoDuplicates(s.player.visitedDestinations)
    ensures var t := Apply(s, MoveToDestination(id));
      && t.player.currentDestinationId == id
      && t.player.visitedDestinations
           == (if id in s.player.visitedDestinations then s.player.visitedDestinations
               else s.player.visitedDestinations + [id])
      && NoDuplicates(t.player.visitedDestinations)
      && (id in route ==> route[t.currentDestinationIndex] == id)
      && (id !in route ==> t.currentDestinationIndex == -1)
      && t.player.resources == s.player.resources
      && t.player.score == s.player.score
      && t.player.completedExcursions == s.player.completedExcursions
      && t.player.collectedSouvenirs == s.player.collectedSouvenirs
      && t.player.name == s.player.name && t.player.level == s.player.level
      && t.gameStarted == s.gameStarted && t.gameCompleted == s.gameCompleted
  {
    var v := s.player.visitedDestinations;
    DedupOfDistinct(v);
    if id !in v {
      assert NoDuplicates(v + [id]);
      DedupOfDistinct(v + [id]);
    } else {
      assert Dedup(v + [id]) == Dedup(v);
    }
  }

  /** `completeExcursion` always appends the id, adds the rewards and 10 points: it has no
      membership check. */
  lemma CompleteExcursionAwards(s: GameState, id: string, rewards: Delta)
    ensures var t := Apply(s, CompleteExcursion(id, rewards));
      && t.player.completedExcursions == s.player.completedExcursions + [id]
      && t.player.resources == Add(s.player.resources, rewards)
      && t.player.score == s.player.score + 10
      && t.player.currentDestinationId == s.player.currentDestinationId
      && t.player.visitedDestinations == s.player.visitedDestinations
      && t.player.collectedSouvenirs == s.player.collectedSouvenirs
      && t.gameStarted == s.gameStarted && t.gameCompleted == s.gameCompleted
      && t.currentDestinationIndex == s.currentDestinationIndex
  {
  }

  /** Completing the same excursion twice is not the same as completing it once: the id is
      listed twice and the rewards and points are granted twice. */
  lemma CompleteExcursionNotIdempotent(s: GameState, id: string, rewards: Delta)
    ensures var once := Apply(s, CompleteExcursion(id, rewards));
            var twice := Apply(once, CompleteExcursion(id, rewards));
      && twice != once
      && twice.player.completedExcursions == s.player.completedExcursions + [id, id]
      && twice.player.score == s.player.score + 20
      && twice.player.resources == Add(Add(s.player.resources, rewards), rewards)
  {
    var once := Apply(s, CompleteExcursion(id, rewards));
    var twice := Apply(once, CompleteExcursion(id, rewards));
    assert |twice.player.completedExcursions| == |once.player.completedExcursions| + 1;
  }

  /** `collectSouvenir` appends the id and adds its points; resources, location and flags stay. */
  lemma CollectSouvenirAwards(s: GameState, id: string, points: int)
    ensures var t := Apply(s, CollectSouvenir(id, points));
      && t.player.collectedSouvenirs == s.player.collectedSouvenirs + [id]
      && t.player.score == s.player.score + points
      && t.player.resources == s.player.resources
      && t.player.currentDestinationId == s.player.currentDestinationId
      && t.player.visitedDestinations == s.player.visitedDestinations
      && t.player.completedExcursions == s.player.completedExcursions
      && t.gameStarted == s.gameStarted && t.gameCompleted == s.gameCompleted
      && t.currentDestinationIndex == s.currentDestinationIndex
  {
  }

  /** `resetGame` restores the initial record, whatever the state before. */
  lemma ResetRestores(s: GameState)
    ensures var t := Apply(s, ResetGame);
      && t.player.name == "" && t.player.level == CasualTraveler
      && t.player.resources == Resources(100, 1000, 0)
      && t.player.currentDestinationId == "amsterdam" && t.player.visitedDestinations == ["amsterdam"]
      && t.player.completedExcursions == [] && t.player.collectedSouvenirs == [] && t.player.score == 0
      && t.currentDestinationIndex == 0 && !t.gameStarted && !t.gameCompleted
  {
  }

  /** The three flag and name setters change only their own field; `completeGame` is idempotent. */
  lemma SettersTouchOneField(s: GameState, name: string)
    ensures Apply(s, SetPlayerName(name)).player.name == name
    ensures Apply(s, SetPlayerName(name)).(player := s.player) == s
    ensures Apply(s, SetPlayerName(name)).player.(name := s.player.name) == s.player
    ensures Apply(s, StartGame) == s.(gameStarted := true)
    ensures Apply(s, CompleteGame) == s.(gameCompleted := true)
    ensures Apply(Apply(s, CompleteGame), CompleteGame) == Apply(s, CompleteGame)
  {
  }

  /** Between resets the visited list only grows, keeps its order and never holds duplicates. */
  lemma {:induction false} VisitedGrows(s: GameState, actions: seq<Action>)
    requires NoDuplicates(s.player.visitedDestinations)
    requires forall i :: 0 <= i < |actions| ==> actions[i] != ResetGame
    ensures NoDuplicates(Run(s, actions).player.visitedDestinations)
    ensures s.player.visitedDestinations <= Run(s, actions).player.visitedDestinations
    decreases |actions|
  {
    if actions != [] {
      var t := Apply(s, actions[0]);
      if actions[0].MoveToDestination? {
        MoveUpdatesLocation(s, actions[0].destinationId);
      }
      assert t.player.visitedDestinations == s.player.visitedDestinations
          || (actions[0].MoveToDestination? && s.player.visitedDestinations <= t.player.visitedDestinations);
      VisitedGrows(t, actions[1..]);
    }
  }

  /** Every reachable state from a reset keeps the visited list duplicate-free. */
  lemma {:induction false} VisitedAlwaysDistinct(s: GameState, actions: seq<Action>)
    requires NoDuplicates(s.player.visitedDestinations)
    ensures NoDuplicates(Run(s, actions).player.visitedDestinations)
    decreases |actions|
  {
    if actions != [] {
      var t := Apply(s, actions[0]);
      if actions[0].MoveToDestination? {
        MoveUpdatesLocation(s, actions[0].destinationId);
      }
      VisitedAlwaysDistinct(t, actions[1..]);
    }
  }

  /** The store object: the four fields of the state record, overwritten by each action. */
  class Store {
    var player: PlayerState
    var gameStarted: bool
    var currentDestinationIndex: int
    var gameCompleted: bool

    function State(): GameState
      reads this
    {
      GameState(player, gameStarted, currentDestinationIndex, gameCompleted)
    }

    /** The store's invariant: the visited list holds no duplicates. */
    predicate Valid()
      reads this
    {
      NoDuplicates(player.visitedDestinations)
    }

    constructor ()
      ensures Valid() && State() == initialGameState
    {
      player := initialPlayerState;
      gameStarted := false;
      currentDestinationIndex := 0;
      gameCompleted := false;
    }

    method SetPlayerName(name: string)
      requires Valid()
      modifies this
      ensures Valid() && State() == Apply(old(State()), Action.SetPlayerName(name))
    {
      player := player.(name := name);
    }

    method UpdateResources(delta: Delta)
      requires Valid()
      modifies this
      ensures Valid() && State() == Apply(old(State()), Action.UpdateResources(delta))
    {
      player := player.(resources := Add(player.resources, delta));
    }

    method MoveToDestination(id: string)
      requires Valid()
      modifies this
      ensures Valid() && State() == Apply(old(State()), Action.MoveToDestination(id))
    {
      var index := IndexOf(route, id);
      player := player.(currentDestinationId := id,
                        visitedDestinations := Dedup(player.visitedDestinations + [id]));
      currentDestinationIndex := index;
    }

    method CompleteExcursion(id: string, rewards: Delta)
      requires Valid()
      modifies this
      ensures Valid() && State() == Apply(old(State()), Action.CompleteExcursion(id, rewards))
    {
      player := player.(completedExcursions := player.completedExcursions + [id],
                        resources := Add(player.resources, rewards),
                        score := player.score + 10);
    }

    method CollectSouvenir(id: string, points: int)
      requires Valid()
      modifies this
      ensures Valid() && State() == Apply(old(State()), Action.CollectSouvenir(id, points))
    {
      player := player.(collectedSouvenirs := player.collectedSouvenirs + [id],
                        score := player.score + points);
    }

    method StartGame()
      requires Valid()
      modifies this
      ensures Valid() && State() == Apply(old(State()), Action.StartGame)
    {
      gameStarted := true;
    }

    method ResetGame()
      modifies this
      ensures Valid() && State() == Apply(old(State()), Action.ResetGame)
    {
      player := initialPlayerState;
      gameStarted := false;
      currentDestinationIndex := 0;
      gameCompleted := false;
    }

    method CompleteGame()
      requires Valid()
      modifies this
      ensures Valid() && State() == Apply(old(State()), Action.CompleteGame)
    {
      gameCompleted := true;
    }
  }
}
